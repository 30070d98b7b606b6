/**
  Reading a range of events page by page: the server's Get, which turns the last
  number of a full page into a decimal token, and the client's loop over it.
 */
module Paging {
  import opened Decimals
  import opened EventLog

  const MAX_PAGE := 256

  function Limit(size: int): (n: nat)
    ensures 0 < n <= MAX_PAGE && n == if 0 < size <= 256 then size else 256
  {
    if size <= 0 || size > MAX_PAGE then MAX_PAGE else size
  }

  /** Where a range ends; no bound unless to is positive, and never before its start. */
  function EndOf(log: seq<Payload>, from: int, to: int): (r: nat)
    ensures StartOf(log, from) <= r <= |log|
  {
    var hi := if to > 0 then Min(to, |log|) else |log|;
    if hi < StartOf(log, from) then StartOf(log, from) else hi
  }

  /** The events of a range, in order. */
  function Wanted(log: seq<Payload>, from: int, to: int): seq<Event> {
    Segment(log, StartOf(log, from), EndOf(log, from, to))
  }

  /** An event is in the range exactly if its number is past from and, if to is set, not past to; numbers ascend. */
  lemma WantedIsExact(log: seq<Payload>, from: int, to: int, i: nat)
    requires i < |log|
    ensures Event(i + 1, log[i]) in Wanted(log, from, to) <==> from < i + 1 && (to > 0 ==> i + 1 <= to)
    ensures forall k: nat :: k < |Wanted(log, from, to)| ==>
              Wanted(log, from, to)[k].number == StartOf(log, from) + k + 1
  {
    var lo, hi := StartOf(log, from), EndOf(log, from, to);
    forall k: nat | k < hi - lo ensures Wanted(log, from, to)[k] == Event(lo + k + 1, log[lo + k]) {
      SegmentAt(log, lo, hi, k);
    }
    if lo <= i < hi { assert Wanted(log, from, to)[i - lo] == Event(i + 1, log[i]); }
  }

  datatype Page = Page(events: seq<Event>, token: string) | BadToken

  /** Where a request starts: a token, if given, replaces from. */
  function Origin(from: int, token: string): (r: Parsed) {
    if token == "" then Number(from) else if AllDigits(token) then Number(Wrap64(Value(token))) else Invalid
  }

  /** A page is the first events of the range left, at most 256, with a token exactly if the range goes on. */
  ghost predicate IsPage(log: seq<Payload>, from: int, to: int, size: int, token: string, page: Page) {
    match Origin(from, token)
    case Invalid => page.BadToken?
    case Number(start) =>
      var left, n := Wanted(log, start, to), if 0 < size <= 256 then size else 256;
      && page.Page?
      && page.events == left[..Min(n, |left|)]
      && page.token == if |left| > n then Decimal(StartOf(log, start) + n) else ""
  }

  /** How many of the events read, numbered from lo + 1 on, lie within to. */
  function Within(lo: nat, n: nat, to: int): (w: nat)
    ensures w <= n
  {
    if to <= 0 then n else if to <= lo then 0 else Min(n, to - lo)
  }

  method FillPage(events: seq<Event>, ghost lo: nat, to: int, limit: nat) returns (out: seq<Event>, next: string)
    requires limit > 0 && forall k: nat :: k < |events| ==> events[k].number == lo + k + 1
    ensures var w := Within(lo, |events|, to);
            out == events[..Min(limit, w)] && next == if w > limit then Decimal(lo + limit) else ""
  {
    out, next := [], "";
    var i := 0;
    while i < |events|
      invariant i <= Within(lo, |events|, to) && i <= limit && out == events[..i] && next == ""
    {
      if to > 0 && events[i].number > to { return; }
      if |out| >= limit {
        next := Decimal(out[|out| - 1].number);
        return;
      }
      out := out + [events[i]];
      i := i + 1;
    }
  }

  /** One read of limit + 1 events is enough to fill a page and to see whether the range goes on. */
  lemma PageFits(log: seq<Payload>, from: int, to: int, limit: nat)
    requires limit > 0
    ensures var r, left := RangeOf(log, from, limit + 1), Wanted(log, from, to);
            var w := Within(StartOf(log, from), |r|, to);
            && (w > limit <==> |left| > limit)
            && Min(limit, w) == Min(limit, |left|)
            && r[..Min(limit, w)] == left[..Min(limit, |left|)]
  {
    PagePrefix(log, from, to, limit + 1);
  }

  method Get(log: seq<Payload>, fromSeq: int, to: int, size: int, token: string) returns (page: Page)
    ensures IsPage(log, fromSeq, to, size, token, page)
  {
    var from := fromSeq;
    if token != "" {
      var n := ReadInt64(token);
      if n.Invalid? { return BadToken; }
      from := n.value;
    }
    var limit := Limit(size);
    var events := RangeOf(log, from, limit + 1);
    forall k: nat | k < |events| ensures events[k].number == StartOf(log, from) + k + 1 {
      ReadAt(log, from, limit + 1, k);
    }
    var out, next := FillPage(events, StartOf(log, from), to, limit);
    PageFits(log, from, to, limit);
    page := Page(out, next);
  }

  lemma ReadAt(log: seq<Payload>, from: int, limit: nat, i: nat)
    requires i < |RangeOf(log, from, limit)| && limit > 0
    ensures RangeOf(log, from, limit)[i].number == StartOf(log, from) + i + 1
  {
    var lo := StartOf(log, from);
    SegmentAt(log, lo, Min(lo + limit, |log|), i);
  }

  /** What one read returns and what the range holds agree as far as both go. */
  lemma PagePrefix(log: seq<Payload>, from: int, to: int, limit: nat)
    requires limit > 0
    ensures var r, w := RangeOf(log, from, limit), Wanted(log, from, to);
            forall k: nat :: k < |r| && k < |w| ==> r[k] == w[k]
  {
    var lo := StartOf(log, from);
    forall k: nat | k < |RangeOf(log, from, limit)| && k < |Wanted(log, from, to)|
      ensures RangeOf(log, from, limit)[k] == Wanted(log, from, to)[k]
    {
      SegmentAt(log, lo, Min(lo + limit, |log|), k);
      SegmentAt(log, lo, EndOf(log, from, to), k);
    }
  }

  /** The token leads on to exactly what the page left out. */
  lemma TokenResumes(log: seq<Payload>, start: int, to: int, n: nat)
    requires |log| < TWO_63 && |Wanted(log, start, to)| > n > 0
    ensures var token := Decimal(StartOf(log, start) + n);
            && token != "" && Origin(start, token) == Number(StartOf(log, start) + n)
            && Wanted(log, start, to)[n..] == Wanted(log, StartOf(log, start) + n, to)
  {
    var lo := StartOf(log, start);
    DecimalRoundTrips(lo + n);
    SegmentJoins(log, lo, lo + n, EndOf(log, start, to));
  }

  lemma Regroup(a: seq<Event>, b: seq<Event>, c: seq<Event>)
    ensures (a + b) + c == a + (b + c)
  {
  }

  /** What a page tells the client: that it is the last one, or where the next one starts and what is left then. */
  lemma PageLeads(log: seq<Payload>, from: int, to: int, size: int, token: string, start: int, page: Page)
    requires |log| < TWO_63 && Origin(from, token) == Number(start) && IsPage(log, from, to, size, token, page)
    ensures page.Page? && (page.token == "" ==> page.events == Wanted(log, start, to))
    ensures page.token != "" ==>
              var next := StartOf(log, start) + Limit(size);
              && Origin(from, page.token) == Number(next) && |Wanted(log, next, to)| < |Wanted(log, start, to)|
              && page.events + Wanted(log, next, to) == Wanted(log, start, to)
  {
    var left, n := Wanted(log, start, to), Limit(size);
    if |left| > n {
      TokenResumes(log, start, to, n);
      assert left == left[..n] + left[n..];
    }
  }

  /**
    The client's loop returns exactly the events of the range, in order, for any
    page size, and ends: every further page has at least one event.
   */
  method GetEvents(log: seq<Payload>, fromSeq: int, toSeq: int, pageSize: int) returns (out: seq<Event>)
    requires |log| < TWO_63
    ensures out == Wanted(log, fromSeq, toSeq)
  {
    out := [];
    var token := "";
    ghost var start := fromSeq;
    while true
      invariant Origin(fromSeq, token) == Number(start)
      invariant out + Wanted(log, start, toSeq) == Wanted(log, fromSeq, toSeq)
      decreases |Wanted(log, start, toSeq)|
    {
      var page := Get(log, fromSeq, toSeq, pageSize, token);
      PageLeads(log, fromSeq, toSeq, pageSize, token, start, page);
      if page.token == "" {
        out := out + page.events;
        return;
      }
      Regroup(out, page.events, Wanted(log, StartOf(log, start) + Limit(pageSize), toSeq));
      out, token := out + page.events, page.token;
      start := StartOf(log, start) + Limit(pageSize);
    }
  }
}

/**
  A session's event log.  An append bumps the session row's last_seq and inserts
  the event under the new number; the row lock taken by the bump is held until
  the surrounding transaction ends, and a transaction may append several times,
  commit or abort.
 */
module EventLog {
  import opened Options

  type Payload = string

  datatype Event = Event(number: int, body: Payload)

  function Min(a: int, b: int): int { if a < b then a else b }

  // ---------------------------------------------------------------- logs as sequences

  /** The log's events numbered lo + 1 up to hi. */
  function Segment(log: seq<Payload>, lo: nat, hi: nat): (r: seq<Event>)
    requires hi <= |log|
    ensures lo <= hi ==> |r| == hi - lo
    decreases hi - lo
  {
    if lo >= hi then [] else [Event(lo + 1, log[lo])] + Segment(log, lo + 1, hi)
  }

  lemma {:induction false} SegmentAt(log: seq<Payload>, lo: nat, hi: nat, i: nat)
    requires lo <= hi <= |log| && i < hi - lo
    ensures Segment(log, lo, hi)[i] == Event(lo + i + 1, log[lo + i])
    decreases i
  {
    if i > 0 { SegmentAt(log, lo + 1, hi, i - 1); }
  }

  lemma {:induction false} SegmentJoins(log: seq<Payload>, lo: nat, mid: nat, hi: nat)
    requires lo <= mid <= hi <= |log|
    ensures Segment(log, lo, mid) + Segment(log, mid, hi) == Segment(log, lo, hi)
    decreases mid - lo
  {
    if lo < mid { SegmentJoins(log, lo + 1, mid, hi); }
  }

  lemma SegmentSnoc(log: seq<Payload>, lo: nat, hi: nat)
    requires lo <= hi < |log|
    ensures Segment(log, lo, hi + 1) == Segment(log, lo, hi) + [Event(hi + 1, log[hi])]
  {
    SegmentJoins(log, lo, hi, hi + 1);
  }

  /** A longer log agrees on what the shorter one had. */
  lemma {:induction false} SegmentOfPrefix(log: seq<Payload>, more: seq<Payload>, lo: nat, hi: nat)
    requires log <= more && hi <= |log|
    ensures Segment(more, lo, hi) == Segment(log, lo, hi)
    decreases hi - lo
  {
    if lo < hi { SegmentOfPrefix(log, more, lo + 1, hi); }
  }

  const DEFAULT_LIMIT := 256

  /** The position after which reading from a sequence number starts; any integer may be given. */
  function StartOf(log: seq<Payload>, from: int): (r: nat)
    ensures r <= |log|
  {
    if from <= 0 then 0 else Min(from, |log|)
  }

  /** What one range query returns. */
  function RangeOf(log: seq<Payload>, from: int, limit: int): seq<Event> {
    var lo := StartOf(log, from);
    Segment(log, lo, Min(lo + if limit <= 0 then DEFAULT_LIMIT else limit, |log|))
  }

  /** A range query returns the first events past its start, in order, without a gap; it stops early only at the end. */
  lemma RangeIsExact(log: seq<Payload>, from: int, limit: int, i: nat)
    requires i < |log|
    ensures var r := RangeOf(log, from, limit);
            var n := i - StartOf(log, from);
            && ((i + 1 > from && n < (if limit <= 0 then 256 else limit)) <==>
                (0 <= n < |r| && r[n] == Event(i + 1, log[i])))
            && (Event(i + 1, log[i]) in r ==> i + 1 > from)
  {
    var lo := StartOf(log, from);
    var r := RangeOf(log, from, limit);
    forall k: nat | k < |r| ensures r[k] == Event(lo + k + 1, log[lo + k]) {
      SegmentAt(log, lo, lo + |r|, k);
    }
  }

  // ---------------------------------------------------------------- concurrent transactions

  /** An open transaction's own view of last_seq and the rows it has inserted. */
  datatype Tx = Tx(last: nat, rows: map<nat, Payload>)

  datatype State = State(lastSeq: nat, rows: map<nat, Payload>, holder: Option<nat>, open: map<nat, Tx>)

  const INIT := State(0, map[], None, map[])

  datatype Action = Append(tx: nat, body: Payload) | Commit(tx: nat) | Abort(tx: nat)

  function TxOf(s: State, k: nat): Tx {
    if k in s.open then s.open[k] else Tx(s.lastSeq, map[])
  }

  function Next(s: State, a: Action): State {
    match a
    case Append(k, body) =>
      if s.holder.Some? && s.holder.value != k then s else
      var tx := TxOf(s, k);
      s.(holder := Some(k), open := s.open[k := Tx(tx.last + 1, tx.rows[tx.last + 1 := body])])
    case Commit(k) =>
      if k !in s.open then s
      else State(s.open[k].last, s.rows + s.open[k].rows, if s.holder == Some(k) then None else s.holder, s.open - {k})
    case Abort(k) =>
      s.(holder := if s.holder == Some(k) then None else s.holder, open := s.open - {k})
  }

  function Exec(acts: seq<Action>): State {
    if acts == [] then INIT else Next(Exec(acts[..|acts| - 1]), acts[|acts| - 1])
  }


  ghost predicate Inv(s: State) {
    && Numbered(s.rows, 0, s.lastSeq)
    && (forall k :: k in s.open ==>
          s.holder == Some(k) && s.lastSeq <= s.open[k].last && Numbered(s.open[k].rows, s.lastSeq, s.open[k].last))
  }

  ghost predicate Numbered(rows: map<nat, Payload>, lo: nat, hi: nat) {
    forall i: nat :: i in rows <==> lo < i <= hi
  }

  lemma {:induction false} ExecInv(acts: seq<Action>)
    ensures Inv(Exec(acts))
    decreases |acts|
  {
    if acts != [] { ExecInv(acts[..|acts| - 1]); }
  }

  /** The committed log in order of sequence numbers. */
  function Log(s: State): seq<Payload> {
    seq(s.lastSeq, i requires 0 <= i => if i + 1 in s.rows then s.rows[i + 1] else "")
  }

  /** Committed sequence numbers are always 1 up to last_seq, whatever aborted or appended several times. */
  lemma Gapless(acts: seq<Action>, i: nat)
    ensures i in Exec(acts).rows <==> 1 <= i <= Exec(acts).lastSeq
  {
    ExecInv(acts);
  }

  /** Once visible, an event stays, and nothing ever appears before it: later logs extend earlier ones. */
  lemma {:induction false} LogOnlyExtends(acts: seq<Action>, i: nat)
    requires i <= |acts|
    ensures Log(Exec(acts[..i])) <= Log(Exec(acts))
    decreases |acts|
  {
    if i == |acts| {
      assert acts[..i] == acts;
    } else {
      var before := acts[..|acts| - 1];
      assert before[..i] == acts[..i];
      LogOnlyExtends(before, i);
      ExecInv(before);
      LogStep(Exec(before), acts[|acts| - 1]);
    }
  }

  lemma LogStep(s: State, a: Action)
    requires Inv(s)
    ensures Log(s) <= Log(Next(s, a))
  {
    var t := Next(s, a);
    forall i: nat | i < s.lastSeq ensures i < t.lastSeq && Log(t)[i] == Log(s)[i] {
      assert i + 1 in s.rows;
    }
  }

  // ---------------------------------------------------------------- what the log holds

  /** What transaction k has appended since it last ended; an append waits while another transaction has appended. */
  ghost function Pending(acts: seq<Action>, k: nat): seq<Payload>
    decreases |acts|
  {
    if acts == [] then [] else
    var before, a := acts[..|acts| - 1], acts[|acts| - 1];
    match a
    case Append(j, body) =>
      Pending(before, k) + if j == k && (forall i: nat :: i != k ==> Pending(before, i) == []) then [body] else []
    case Commit(j) => if j == k then [] else Pending(before, k)
    case Abort(j) => if j == k then [] else Pending(before, k)
  }

  /** The appends of the transactions that committed, in the order of their commits. */
  ghost function Committed(acts: seq<Action>): seq<Payload> {
    if acts == [] then [] else
    var before, a := acts[..|acts| - 1], acts[|acts| - 1];
    Committed(before) + if a.Commit? then Pending(before, a.tx) else []
  }

  /** An open transaction holds its appends, numbered on from the last committed number. */
  ghost predicate Holds(s: State, k: nat, pending: seq<Payload>) {
    if k in s.open then
      && s.holder == Some(k) && pending != [] && s.open[k].last == s.lastSeq + |pending|
      && (forall i: nat :: i in s.open[k].rows <==> s.lastSeq < i <= s.open[k].last)
      && (forall i: nat :: i < |pending| ==> s.open[k].rows[s.lastSeq + i + 1] == pending[i])
    else s.holder != Some(k) && pending == []
  }

  ghost predicate HoldsAll(s: State, acts: seq<Action>) {
    forall k: nat {:trigger Pending(acts, k)} :: Holds(s, k, Pending(acts, k))
  }

  lemma OthersIdle(s: State, acts: seq<Action>, k: nat)
    requires HoldsAll(s, acts)
    ensures (forall i: nat :: i != k ==> Pending(acts, i) == []) <==> (s.holder.None? || s.holder == Some(k))
  {
    if s.holder.None? || s.holder == Some(k) {
      forall i: nat | i != k ensures Pending(acts, i) == [] { assert Holds(s, i, Pending(acts, i)); }
    } else {
      var i: nat := s.holder.value;
      assert i != k && Holds(s, i, Pending(acts, i));
      assert exists j: nat :: j != k && Pending(acts, j) != [];
    }
  }

  lemma AppendHolds(s: State, k: nat, body: Payload, pending: seq<Payload>)
    requires Holds(s, k, pending) && (s.holder.None? || s.holder == Some(k))
    ensures Holds(Next(s, Append(k, body)), k, pending + [body])
  {
  }

  lemma OtherHolds(s: State, a: Action, k: nat, pending: seq<Payload>)
    requires Inv(s) && Holds(s, k, pending) && a.tx != k
    ensures Holds(Next(s, a), k, pending)
  {
  }

  lemma StepHolds(s: State, acts: seq<Action>, a: Action, k: nat)
    requires Inv(s) && HoldsAll(s, acts)
    ensures Holds(Next(s, a), k, Pending(acts + [a], k))
  {
    assert (acts + [a])[..|acts|] == acts;
    var pending := Pending(acts, k);
    assert Holds(s, k, pending) && pending + [] == pending;
    OthersIdle(s, acts, a.tx);
    if a.tx != k {
      OtherHolds(s, a, k, pending);
    } else if a.Append? && (s.holder.None? || s.holder == Some(k)) {
      AppendHolds(s, k, a.body, pending);
    }
  }

  lemma {:induction false} ExecHolds(acts: seq<Action>)
    ensures HoldsAll(Exec(acts), acts)
    decreases |acts|
  {
    if acts != [] {
      var before, a := acts[..|acts| - 1], acts[|acts| - 1];
      ExecInv(before);
      ExecHolds(before);
      assert before + [a] == acts;
      forall k: nat ensures Holds(Exec(acts), k, Pending(acts, k)) { StepHolds(Exec(before), before, a, k); }
    }
  }

  lemma CommitLogs(acts: seq<Action>, k: nat)
    requires Inv(Exec(acts)) && Holds(Exec(acts), k, Pending(acts, k))
    ensures Log(Next(Exec(acts), Commit(k))) == Log(Exec(acts)) + Pending(acts, k)
  {
    var s, t := Exec(acts), Next(Exec(acts), Commit(k));
    if k in s.open {
      forall i: nat | i < t.lastSeq ensures Log(t)[i] == (Log(s) + Pending(acts, k))[i] {
        assert i < s.lastSeq ==> i + 1 in s.rows && i + 1 !in s.open[k].rows;
      }
    }
  }

  /**
    The visible log is what the committed transactions appended, transaction by
    transaction in the order of their commits, and nothing of any other.
   */
  lemma {:induction false} LogIsCommitted(acts: seq<Action>)
    ensures Log(Exec(acts)) == Committed(acts)
    decreases |acts|
  {
    if acts != [] {
      var before, a := acts[..|acts| - 1], acts[|acts| - 1];
      LogIsCommitted(before);
      ExecInv(before);
      ExecHolds(before);
      if a.Commit? {
        CommitLogs(before, a.tx);
      } else {
        assert Log(Exec(acts)) == Log(Exec(before));
      }
    }
  }

  // ---------------------------------------------------------------- the store

  /** The session row and its event rows, with one transaction at a time. */
  class SessionLog {
    var lastSeq: nat
    var rows: map<nat, Payload>

    ghost predicate Valid()
      reads this
    {
      Numbered(rows, 0, lastSeq)
    }

    function Contents(): seq<Payload>
      reads this
    {
      Log(State(lastSeq, rows, None, map[]))
    }

    constructor ()
      ensures Valid() && Contents() == []
    {
      lastSeq, rows := 0, map[];
    }

    method AppendEvent(body: Payload) returns (number: nat)
      requires Valid()
      modifies this
      ensures Valid() && Contents() == old(Contents()) + [body]
      ensures number == |Contents()|
    {
      lastSeq := lastSeq + 1;
      number := lastSeq;
      rows := rows[number := body];
    }

    method Range(from: int, limit: int) returns (events: seq<Event>)
      requires Valid()
      ensures events == RangeOf(Contents(), from, limit)
    {
      var most := if limit <= 0 then DEFAULT_LIMIT else limit;
      var i: nat := if from <= 0 then 0 else from;
      events := [];
      if i > lastSeq { return; }
      ghost var log, lo := Contents(), i;
      assert forall k: nat :: k < lastSeq ==> log[k] == rows[k + 1];
      while i < lastSeq && |events| < most
        invariant lo <= i <= lastSeq && |events| == i - lo <= most
        invariant events == Segment(log, lo, i)
        decreases lastSeq - i
      {
        SegmentSnoc(log, lo, i);
        events := events + [Event(i + 1, rows[i + 1])];
        i := i + 1;
      }
    }
  }
}

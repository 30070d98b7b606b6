/**
  Delivering a session's events.  The server reads batches past the last number
  it sent and puts them on the wire; the client remembers the last number it
  handed out and, when a stream breaks, opens a new one from there.  What was on
  the wire is lost, notifications may be lost, and the log keeps growing.
 */
module Delivery {
  import opened Options
  import opened EventLog

  const BATCH := 256

  function Pos(number: int): nat { if number < 0 then 0 else number }

  /** The events follow position lo in the log without a gap; no event follows any position. */
  predicate Follows(log: seq<Payload>, lo: nat, events: seq<Event>) {
    events == [] || (lo + |events| <= |log| && events == Segment(log, lo, lo + |events|))
  }

  lemma FollowsGrown(log: seq<Payload>, more: seq<Payload>, lo: nat, events: seq<Event>)
    requires Follows(log, lo, events) && log <= more
    ensures Follows(more, lo, events)
  {
    if events != [] { SegmentOfPrefix(log, more, lo, lo + |events|); }
  }

  lemma FollowsSplit(log: seq<Payload>, lo: nat, events: seq<Event>)
    requires Follows(log, lo, events) && events != []
    ensures events[0] == Event(lo + 1, log[lo]) && Follows(log, lo + 1, events[1..])
  {
  }

  lemma FollowsJoin(log: seq<Payload>, lo: nat, a: seq<Event>, b: seq<Event>)
    requires Follows(log, lo, a) && Follows(log, lo + |a|, b)
    ensures Follows(log, lo, a + b)
  {
    if b != [] && a != [] {
      SegmentJoins(log, lo, lo + |a|, lo + |a| + |b|);
    } else if b == [] {
      assert a + b == a;
    } else {
      assert a + b == b;
    }
  }

  lemma RangeFollows(log: seq<Payload>, from: int, limit: int)
    ensures Follows(log, Pos(from), RangeOf(log, from, limit))
    ensures RangeOf(log, from, limit) == [] <==> |log| <= Pos(from)
  {
  }

  // ---------------------------------------------------------------- server and client together

  datatype Server = Server(next: int, batch: seq<Event>, wire: seq<Event>)

  datatype Feed = Feed(log: seq<Payload>, from: int, last: int, server: Option<Server>, delivered: seq<Event>)

  datatype Action = Grow(body: Payload) | Open | Fetch | Send | Receive | Break

  /** A subscription from a sequence number, over whatever log there is. */
  function Start(log: seq<Payload>, from: int): Feed {
    Feed(log, from, from, None, [])
  }

  function Next(s: Feed, a: Action): Feed {
    match a
    case Grow(body) => s.(log := s.log + [body])
    case Open => if s.server.Some? then s else s.(server := Some(Server(s.last, [], [])))
    case Break => s.(server := None)
    case Fetch =>
      if s.server.None? || s.server.value.batch != [] then s
      else s.(server := Some(s.server.value.(batch := RangeOf(s.log, s.server.value.next, BATCH))))
    case Send =>
      if s.server.None? || s.server.value.batch == [] then s else
      var v := s.server.value;
      s.(server := Some(Server(v.batch[0].number, v.batch[1..], v.wire + [v.batch[0]])))
    case Receive =>
      if s.server.None? || s.server.value.wire == [] then s else
      var v := s.server.value;
      s.(last := v.wire[0].number, delivered := s.delivered + [v.wire[0]], server := Some(v.(wire := v.wire[1..])))
  }

  function Exec(log: seq<Payload>, from: int, acts: seq<Action>): Feed {
    if acts == [] then Start(log, from) else Next(Exec(log, from, acts[..|acts| - 1]), acts[|acts| - 1])
  }

  predicate ServerOk(s: Feed, v: Server) {
    && Follows(s.log, Pos(s.last), v.wire)
    && Pos(v.next) == Pos(s.last) + |v.wire|
    && Follows(s.log, Pos(v.next), v.batch)
  }

  predicate Inv(s: Feed) {
    && Follows(s.log, Pos(s.from), s.delivered)
    && Pos(s.last) == Pos(s.from) + |s.delivered|
    && (s.server.Some? ==> ServerOk(s, s.server.value))
  }

  lemma SendInv(s: Feed)
    requires Inv(s)
    ensures Inv(Next(s, Send))
  {
    if s.server.Some? && s.server.value.batch != [] {
      var v := s.server.value;
      FollowsSplit(s.log, Pos(v.next), v.batch);
      FollowsJoin(s.log, Pos(s.last), v.wire, [v.batch[0]]);
    }
  }

  lemma ReceiveInv(s: Feed)
    requires Inv(s)
    ensures Inv(Next(s, Receive))
  {
    if s.server.Some? && s.server.value.wire != [] {
      var v := s.server.value;
      FollowsSplit(s.log, Pos(s.last), v.wire);
      FollowsJoin(s.log, Pos(s.from), s.delivered, [v.wire[0]]);
    }
  }

  lemma GrowInv(s: Feed, body: Payload)
    requires Inv(s)
    ensures Inv(Next(s, Grow(body)))
  {
    var more := s.log + [body];
    FollowsGrown(s.log, more, Pos(s.from), s.delivered);
    if s.server.Some? {
      FollowsGrown(s.log, more, Pos(s.last), s.server.value.wire);
      FollowsGrown(s.log, more, Pos(s.server.value.next), s.server.value.batch);
    }
  }

  lemma NextInv(s: Feed, a: Action)
    requires Inv(s)
    ensures Inv(Next(s, a))
  {
    match a
    case Grow(body) => GrowInv(s, body);
    case Send => SendInv(s);
    case Receive => ReceiveInv(s);
    case Fetch => if s.server.Some? { RangeFollows(s.log, s.server.value.next, BATCH); }
    case _ =>
  }

  lemma {:induction false} ExecInv(log: seq<Payload>, from: int, acts: seq<Action>)
    ensures Inv(Exec(log, from, acts)) && Exec(log, from, acts).from == from
    decreases |acts|
  {
    if acts != [] {
      ExecInv(log, from, acts[..|acts| - 1]);
      NextInv(Exec(log, from, acts[..|acts| - 1]), acts[|acts| - 1]);
    }
  }

  /** What the client has handed out is a contiguous run starting after fromSeq, across any number of reconnects. */
  lemma DeliveredInOrder(log: seq<Payload>, from: int, acts: seq<Action>, i: nat)
    requires i < |Exec(log, from, acts).delivered|
    ensures var s := Exec(log, from, acts);
            var n := Pos(from) + i;
            n < |s.log| && s.delivered[i] == Event(n + 1, s.log[n])
  {
    ExecInv(log, from, acts);
    var s := Exec(log, from, acts);
    SegmentAt(s.log, Pos(from), Pos(from) + |s.delivered|, i);
  }

  /** And it is all of them once a read finds nothing new and nothing is in flight. */
  lemma DeliveredAll(log: seq<Payload>, from: int, acts: seq<Action>)
    requires var s := Exec(log, from, acts);
             s.server.Some? && s.server.value.batch == [] && s.server.value.wire == []
             && RangeOf(s.log, s.server.value.next, BATCH) == []
    ensures var s := Exec(log, from, acts);
            s.delivered == Segment(s.log, StartOf(s.log, from), |s.log|)
  {
    ExecInv(log, from, acts);
    var s := Exec(log, from, acts);
    RangeFollows(s.log, s.server.value.next, BATCH);
  }

  // ---------------------------------------------------------------- the server's loop

  lemma FollowsAt(log: seq<Payload>, lo: nat, events: seq<Event>, i: nat)
    requires Follows(log, lo, events) && i < |events|
    ensures events[i].number == lo + i + 1 && Follows(log, lo + i, [events[i]])
  {
    SegmentAt(log, lo, lo + |events|, i);
    SegmentAt(log, lo + i, lo + i + 1, 0);
  }

  /** Sends one batch event by event, remembering the last number sent. */
  method SendBatch(ghost log: seq<Payload>, ghost lo: nat, batch: seq<Event>) returns (out: seq<Event>, next: int)
    requires batch != [] && Follows(log, lo, batch)
    ensures out == batch && next == lo + |batch|
  {
    out, next := [], 0;
    var i := 0;
    while i < |batch|
      invariant i <= |batch| && out == batch[..i] && (i > 0 ==> next == lo + i)
    {
      FollowsAt(log, lo, batch, i);
      out, next := out + [batch[i]], batch[i].number;
      i := i + 1;
    }
  }

  /** Drains what is visible now, batch by batch. */
  method Drain(log: seq<Payload>, from: int) returns (out: seq<Event>, next: int)
    ensures Follows(log, Pos(from), out)
    ensures Pos(next) == Pos(from) + |out| && |log| <= Pos(next)
  {
    out, next := [], from;
    while true
      invariant Follows(log, Pos(from), out) && Pos(next) == Pos(from) + |out|
      decreases |log| - Pos(next)
    {
      RangeFollows(log, next, BATCH);
      var batch := RangeOf(log, next, BATCH);
      if batch == [] { break; }
      var sent;
      FollowsJoin(log, Pos(from), out, batch);
      sent, next := SendBatch(log, Pos(next), batch);
      out := out + sent;
    }
  }

  /** One subscription goroutine over the logs it sees at its successive wake-ups. */
  method Serve(views: seq<seq<Payload>>, from: int) returns (out: seq<Event>)
    requires views != [] && forall i :: 0 < i < |views| ==> views[i - 1] <= views[i]
    ensures var log := views[|views| - 1]; out == Segment(log, StartOf(log, from), |log|)
  {
    var next := from;
    out := [];
    var i := 0;
    while i < |views|
      invariant i <= |views| && Pos(next) == Pos(from) + |out|
      invariant i == 0 ==> out == []
      invariant i > 0 ==> Follows(views[i - 1], Pos(from), out) && |views[i - 1]| <= Pos(next)
    {
      var more;
      ghost var base := Pos(next);
      if i > 0 { FollowsGrown(views[i - 1], views[i], Pos(from), out); }
      more, next := Drain(views[i], next);
      FollowsJoin(views[i], Pos(from), out, more);
      out := out + more;
      i := i + 1;
    }
  }

  // ---------------------------------------------------------------- the client

  datatype Frame = Data(event: Event) | KeepAlive

  function EventsIn(frames: seq<Frame>): seq<Event> {
    if frames == [] then []
    else (if frames[0].Data? then [frames[0].event] else []) + EventsIn(frames[1..])
  }

  /** An attempt to connect: refused, or what arrives for the number asked from before the stream breaks. */
  datatype Connection = Refused | Accepted(reply: int -> seq<Frame>)

  /**
    No event comes from the stream, or the connections after it: an idle stream
    and a refused or idle connection lead to the next one, if reconnecting is on.
   */
  predicate NothingComes(stream: Option<seq<Frame>>, last: int, reconnect: bool, connections: seq<Connection>) {
    if stream.Some? then
      EventsIn(stream.value) == [] && (reconnect ==> AllIdle(connections, last))
    else connections == [] || (Idle(connections[0], last) && (reconnect ==> AllIdle(connections, last)))
  }

  predicate AllIdle(connections: seq<Connection>, last: int) {
    forall i :: 0 <= i < |connections| ==> Idle(connections[i], last)
  }

  predicate Idle(c: Connection, last: int) { c.Accepted? ==> EventsIn(c.reply(last)) == [] }

  class Subscription {
    var lastSeq: int
    var stream: Option<seq<Frame>>
    const reconnect: bool

    constructor (fromSeq: int, reconnect: bool)
      ensures lastSeq == fromSeq && stream == None && this.reconnect == reconnect
    {
      lastSeq, stream, this.reconnect := fromSeq, None, reconnect;
    }

    /** What is still on the open stream follows what was handed out. */
    ghost predicate Faithful(log: seq<Payload>)
      reads this
    {
      stream.Some? ==> Follows(log, Pos(lastSeq), EventsIn(stream.value))
    }

    /** Takes frames off the open stream until one carries an event. */
    method Receive(ghost log: seq<Payload>) returns (r: Option<Event>)
      requires stream.Some? && Faithful(log)
      modifies this
      ensures Faithful(log)
      ensures r.None? <==> EventsIn(old(stream).value) == []
      ensures r.None? ==> lastSeq == old(lastSeq) && stream == Some([])
      ensures r.Some? ==> stream.Some? && EventsIn(old(stream).value) == [r.value] + EventsIn(stream.value)
      ensures r.Some? ==> Pos(old(lastSeq)) < |log|
                          && r.value == Event(Pos(old(lastSeq)) + 1, log[Pos(old(lastSeq))])
                          && lastSeq == r.value.number
    {
      var frames := stream.value;
      while frames != []
        invariant lastSeq == old(lastSeq) && Follows(log, Pos(lastSeq), EventsIn(frames))
        invariant EventsIn(frames) == EventsIn(old(stream).value)
        decreases |frames|
      {
        var frame := frames[0];
        frames := frames[1..];
        if frame.Data? {
          FollowsSplit(log, Pos(lastSeq), [frame.event] + EventsIn(frames));
          assert ([frame.event] + EventsIn(frames))[1..] == EventsIn(frames);
          lastSeq, stream := frame.event.number, Some(frames);
          return Some(frame.event);
        }
      }
      stream := Some([]);
      r := None;
    }

    /**
      The next event, reconnecting from the last number handed out as often as
      the given connections allow; None when they or the retries run out.
     */
    method Next(ghost log: seq<Payload>, connections: seq<Connection>) returns (r: Option<Event>)
      requires Faithful(log)
      requires forall c, from: int :: c in connections && c.Accepted? ==>
                 Follows(log, Pos(from), EventsIn(c.reply(from)))
      modifies this
      ensures Faithful(log)
      ensures r.None? <==> NothingComes(old(stream), old(lastSeq), reconnect, connections)
      ensures r.None? ==> lastSeq == old(lastSeq)
      ensures r.Some? ==> Pos(old(lastSeq)) < |log|
                          && r.value == Event(Pos(old(lastSeq)) + 1, log[Pos(old(lastSeq))])
                          && lastSeq == r.value.number
    {
      var i := 0;
      while true
        invariant i <= |connections| && lastSeq == old(lastSeq) && Faithful(log)
        invariant NothingComes(stream, lastSeq, reconnect, connections[i..]) <==>
                    NothingComes(old(stream), old(lastSeq), reconnect, connections)
        decreases |connections| - i, stream.Some?
      {
        if stream.None? {
          if i == |connections| { return None; }
          var c := connections[i];
          i := i + 1;
          if c.Refused? {
            if !reconnect { return None; }
            continue;
          }
          stream := Some(c.reply(lastSeq));
        }
        r := Receive(log);
        if r.Some? { return; }
        stream := None;
        if !reconnect { return None; }
      }
    }
  }
}

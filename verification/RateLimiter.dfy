/**
  The admin engine's admission control: a token bucket that refills with elapsed
  time, and a bound on commands in flight.  Tokens and times are reals.
 */
module RateLimiter {

  /** Unset limits have been replaced by positive defaults. */
  datatype Limits = Limits(rate: nat, maxConcurrent: nat) {
    predicate Valid() { rate > 0 && maxConcurrent > 0 }
    function Rate(): real { rate as real }
  }

  const DEFAULT_RATE := 20
  const DEFAULT_CONCURRENT := 8

  function LimitsOf(rate: int, maxConcurrent: int): (l: Limits)
    ensures l.Valid()
    ensures if rate > 0 then l.rate == rate else l.rate == 20
    ensures if maxConcurrent > 0 then l.maxConcurrent == maxConcurrent else l.maxConcurrent == 8
  {
    Limits(if rate <= 0 then DEFAULT_RATE else rate, if maxConcurrent <= 0 then DEFAULT_CONCURRENT else maxConcurrent)
  }

  datatype Bucket = Bucket(tokens: real, lastFill: real, inflight: nat)

  datatype Verdict = Granted | RateLimited | Busy

  /** The tokens that arrive in a span of time: the span times the rate, summed so that proofs stay linear. */
  function Inflow(rate: nat, span: real): real {
    if rate == 0 then 0.0 else span + Inflow(rate - 1, span)
  }

  lemma {:induction false} InflowIsProduct(rate: nat, span: real)
    ensures Inflow(rate, span) == span * rate as real
  {
    if rate > 0 { InflowIsProduct(rate - 1, span); }
  }

  lemma {:induction false} InflowPositive(rate: nat, span: real)
    requires span >= 0.0
    ensures Inflow(rate, span) >= 0.0
  {
    if rate > 0 { InflowPositive(rate - 1, span); }
  }

  lemma {:induction false} InflowNothing(rate: nat)
    ensures Inflow(rate, 0.0) == 0.0
  {
    if rate > 0 { InflowNothing(rate - 1); }
  }

  lemma {:induction false} InflowAdds(rate: nat, x: real, y: real)
    ensures Inflow(rate, x) + Inflow(rate, y) == Inflow(rate, x + y)
  {
    if rate > 0 { InflowAdds(rate - 1, x, y); }
  }

  /** The tokens there are at a later time if nobody takes any. */
  function Available(l: Limits, b: Bucket, now: real): real {
    var grown := b.tokens + Inflow(l.rate, now - b.lastFill);
    if grown > l.Rate() then l.Rate() else grown
  }

  function VerdictAt(l: Limits, b: Bucket, now: real): Verdict {
    if Available(l, b, now) < 1.0 then RateLimited
    else if b.inflight >= l.maxConcurrent then Busy
    else Granted
  }

  function Acquired(l: Limits, b: Bucket, now: real): Bucket {
    if VerdictAt(l, b, now).Granted? then Bucket(Available(l, b, now) - 1.0, now, b.inflight + 1)
    else Bucket(Available(l, b, now), now, b.inflight)
  }

  function Released(b: Bucket): Bucket {
    if b.inflight > 0 then b.(inflight := b.inflight - 1) else b
  }

  class Limiter {
    var tokens: real
    var lastFill: real
    var inflight: nat
    const limits: Limits

    function Current(): Bucket
      reads this
    {
      Bucket(tokens, lastFill, inflight)
    }

    constructor (rate: int, maxConcurrent: int, now: real)
      ensures limits == LimitsOf(rate, maxConcurrent) && Current() == Fresh(limits, now)
    {
      limits := LimitsOf(rate, maxConcurrent);
      tokens, lastFill, inflight := LimitsOf(rate, maxConcurrent).Rate(), now, 0;
    }

    method Acquire(now: real) returns (v: Verdict)
      modifies this
      ensures v == VerdictAt(limits, old(Current()), now) && Current() == Acquired(limits, old(Current()), now)
    {
      var elapsed := now - lastFill;
      InflowIsProduct(limits.rate, elapsed);
      tokens := tokens + elapsed * limits.Rate();
      if tokens > limits.Rate() { tokens := limits.Rate(); }
      lastFill := now;
      if tokens < 1.0 { return RateLimited; }
      if inflight >= limits.maxConcurrent { return Busy; }
      tokens := tokens - 1.0;
      inflight := inflight + 1;
      v := Granted;
    }

    method Release()
      modifies this
      ensures Current() == Released(old(Current()))
    {
      if inflight > 0 { inflight := inflight - 1; }
    }
  }

  // ---------------------------------------------------------------- runs

  datatype Action = Acquire(at: real) | Release

  function Fresh(l: Limits, now: real): Bucket { Bucket(l.Rate(), now, 0) }

  function Step(l: Limits, b: Bucket, a: Action): Bucket {
    match a
    case Acquire(at) => Acquired(l, b, at)
    case Release => Released(b)
  }

  function Run(l: Limits, b: Bucket, acts: seq<Action>): Bucket
    decreases |acts|
  {
    if acts == [] then b else Run(l, Step(l, b, acts[0]), acts[1..])
  }

  function Grants(l: Limits, b: Bucket, acts: seq<Action>): nat
    decreases |acts|
  {
    if acts == [] then 0
    else (if acts[0].Acquire? && VerdictAt(l, b, acts[0].at).Granted? then 1 else 0)
         + Grants(l, Step(l, b, acts[0]), acts[1..])
  }

  function Releases(acts: seq<Action>): nat {
    if acts == [] then 0 else (if acts[0].Release? then 1 else 0) + Releases(acts[1..])
  }

  /** Time never runs backwards from t0 on. */
  predicate Ordered(t0: real, acts: seq<Action>)
    decreases |acts|
  {
    acts == [] ||
    if acts[0].Acquire? then t0 <= acts[0].at && Ordered(acts[0].at, acts[1..]) else Ordered(t0, acts[1..])
  }

  predicate CoveredUpTo(l: Limits, b: Bucket, acts: seq<Action>, n: int)
    requires 0 <= n <= |acts|
  {
    Releases(acts[..n]) <= b.inflight + Grants(l, b, acts[..n])
  }

  /** At no point have more commands been released than were in flight or granted. */
  ghost predicate Paired(l: Limits, b: Bucket, acts: seq<Action>) {
    forall n :: 0 <= n <= |acts| ==> CoveredUpTo(l, b, acts, n)
  }

  predicate Sound(l: Limits, b: Bucket) {
    l.Valid() && 0.0 <= b.tokens <= l.Rate() && b.inflight <= l.maxConcurrent
  }

  lemma RefillSound(l: Limits, b: Bucket, now: real)
    requires Sound(l, b) && b.lastFill <= now
    ensures b.tokens <= Available(l, b, now) <= l.Rate()
  {
    InflowPositive(l.rate, now - b.lastFill);
  }

  lemma {:induction false} RunSound(l: Limits, b: Bucket, acts: seq<Action>)
    requires Sound(l, b) && Ordered(b.lastFill, acts)
    ensures Sound(l, Run(l, b, acts))
    decreases |acts|
  {
    if acts != [] {
      if acts[0].Acquire? { RefillSound(l, b, acts[0].at); }
      RunSound(l, Step(l, b, acts[0]), acts[1..]);
    }
  }

  /** From any time t on, grants are paid for by the tokens there are at t and those that arrive until t1. */
  lemma {:induction false} GrantsArePaid(l: Limits, b: Bucket, acts: seq<Action>, t: real, t1: real)
    requires Sound(l, b) && b.lastFill <= t <= t1 && Ordered(t, acts)
    requires forall i :: 0 <= i < |acts| && acts[i].Acquire? ==> acts[i].at <= t1
    ensures Grants(l, b, acts) as real <= Available(l, b, t) + Inflow(l.rate, t1 - t)
    decreases |acts|
  {
    RefillSound(l, b, t);
    if acts == [] {
      InflowPositive(l.rate, t1 - t);
    } else {
      var a, rest := acts[0], acts[1..];
      assert forall i :: 0 <= i < |rest| ==> rest[i] == acts[i + 1];
      if a.Release? {
        GrantsArePaid(l, Released(b), rest, t, t1);
      } else {
        var next := Acquired(l, b, a.at);
        RefillSound(l, b, a.at);
        GrantsArePaid(l, next, rest, a.at, t1);
        AvailableGrows(l, b, t, a.at);
        InflowNothing(l.rate);
        InflowAdds(l.rate, t1 - a.at, a.at - t);
      }
    }
  }

  lemma AvailableGrows(l: Limits, b: Bucket, t: real, u: real)
    requires Sound(l, b) && b.lastFill <= t <= u
    ensures Available(l, b, u) <= Available(l, b, t) + Inflow(l.rate, u - t)
  {
    InflowAdds(l.rate, t - b.lastFill, u - t);
    InflowPositive(l.rate, u - t);
  }

  lemma {:induction false} RunSplits(l: Limits, b: Bucket, acts: seq<Action>, rest: seq<Action>)
    requires Sound(l, b) && Ordered(b.lastFill, acts + rest)
    ensures Sound(l, Run(l, b, acts)) && Ordered(Run(l, b, acts).lastFill, rest)
    decreases |acts|
  {
    if acts == [] {
      assert acts + rest == rest;
    } else {
      assert (acts + rest)[1..] == acts[1..] + rest;
      if acts[0].Acquire? { RefillSound(l, b, acts[0].at); }
      RunSplits(l, Step(l, b, acts[0]), acts[1..], rest);
    }
  }

  lemma {:induction false} OrderedPrefix(t: real, acts: seq<Action>, rest: seq<Action>)
    requires Ordered(t, acts + rest)
    ensures Ordered(t, acts)
    decreases |acts|
  {
    if acts != [] {
      assert (acts + rest)[1..] == acts[1..] + rest;
      OrderedPrefix(if acts[0].Acquire? then acts[0].at else t, acts[1..], rest);
    }
  }

  // ---------------------------------------------------------------- theorems

  /** Tokens stay between nothing and the rate, and no more commands are in flight than allowed. */
  lemma AlwaysSound(l: Limits, t0: real, acts: seq<Action>)
    requires l.Valid() && Ordered(t0, acts)
    ensures var b := Run(l, Fresh(l, t0), acts);
            0.0 <= b.tokens <= l.Rate() && b.inflight <= l.maxConcurrent
  {
    RunSound(l, Fresh(l, t0), acts);
  }

  /**
    In any stretch of a run whose acquisitions fall within a window from a to b,
    at most R + R * (b - a) are granted; the product is Inflow.
   */
  lemma WindowBound(l: Limits, t0: real, before: seq<Action>, stretch: seq<Action>, after: seq<Action>,
                    a: real, b: real)
    requires l.Valid() && Ordered(t0, before + (stretch + after)) && a <= b
    requires forall k :: 0 <= k < |stretch| && stretch[k].Acquire? ==> a <= stretch[k].at <= b
    ensures Grants(l, Run(l, Fresh(l, t0), before), stretch) as real <= l.Rate() + Inflow(l.rate, b - a)
  {
    var s := Run(l, Fresh(l, t0), before);
    RunSplits(l, Fresh(l, t0), before, stretch + after);
    OrderedPrefix(s.lastFill, stretch, after);
    WindowFrom(l, s, stretch, a, b);
  }

  lemma {:induction false} WindowFrom(l: Limits, s: Bucket, acts: seq<Action>, a: real, b: real)
    requires Sound(l, s) && Ordered(s.lastFill, acts) && a <= b
    requires forall k :: 0 <= k < |acts| && acts[k].Acquire? ==> a <= acts[k].at <= b
    ensures Grants(l, s, acts) as real <= l.Rate() + Inflow(l.rate, b - a)
    decreases |acts|
  {
    InflowPositive(l.rate, b - a);
    if acts != [] {
      if acts[0].Release? {
        assert forall k :: 0 <= k < |acts[1..]| ==> acts[1..][k] == acts[k + 1];
        WindowFrom(l, Released(s), acts[1..], a, b);
      } else {
        var t := acts[0].at;
        GrantsArePaid(l, s, acts, t, b);
        RefillSound(l, s, t);
        InflowAdds(l.rate, b - t, t - a);
        InflowPositive(l.rate, t - a);
      }
    }
  }

  /** Releases that find nothing in flight are not counted against it. */
  lemma {:induction false} InflightAtLeast(l: Limits, b: Bucket, acts: seq<Action>)
    ensures Run(l, b, acts).inflight >= b.inflight + Grants(l, b, acts) - Releases(acts)
    decreases |acts|
  {
    if acts != [] { InflightAtLeast(l, Step(l, b, acts[0]), acts[1..]); }
  }

  lemma CoveredAfterStep(l: Limits, b: Bucket, acts: seq<Action>, n: nat)
    requires n < |acts| && (acts[0].Release? ==> b.inflight > 0)
    ensures CoveredUpTo(l, b, acts, n + 1) <==> CoveredUpTo(l, Step(l, b, acts[0]), acts[1..], n)
  {
    assert acts[..n + 1][1..] == acts[1..][..n];
  }

  lemma PairedAfterStep(l: Limits, b: Bucket, acts: seq<Action>)
    requires acts != [] && (acts[0].Release? ==> b.inflight > 0)
    ensures Paired(l, b, acts) <==> Paired(l, Step(l, b, acts[0]), acts[1..])
  {
    forall n: nat | n < |acts|
      ensures CoveredUpTo(l, b, acts, n + 1) <==> CoveredUpTo(l, Step(l, b, acts[0]), acts[1..], n)
    {
      CoveredAfterStep(l, b, acts, n);
    }
    if Paired(l, Step(l, b, acts[0]), acts[1..]) {
      forall n | 0 <= n <= |acts| ensures CoveredUpTo(l, b, acts, n) {
        if n > 0 { assert CoveredUpTo(l, Step(l, b, acts[0]), acts[1..], n - 1); }
      }
    }
    if Paired(l, b, acts) {
      forall n | 0 <= n <= |acts[1..]| ensures CoveredUpTo(l, Step(l, b, acts[0]), acts[1..], n) {
        assert CoveredUpTo(l, b, acts, n + 1);
      }
    }
  }

  lemma {:induction false} InflightCountsFrom(l: Limits, b: Bucket, acts: seq<Action>)
    ensures Run(l, b, acts).inflight == b.inflight + Grants(l, b, acts) - Releases(acts) <==> Paired(l, b, acts)
    decreases |acts|
  {
    if acts == [] {
    } else if acts[0].Release? && b.inflight == 0 {
      InflightAtLeast(l, b, acts[1..]);
      assert Step(l, b, acts[0]) == b;
      assert !CoveredUpTo(l, b, acts, 1) by {
        assert acts[..1][1..] == [] && Releases([]) == 0 && Grants(l, b, []) == 0;
      }
    } else {
      InflightCountsFrom(l, Step(l, b, acts[0]), acts[1..]);
      PairedAfterStep(l, b, acts);
    }
  }

  /** In flight is grants minus releases exactly if releases never got ahead of the grants. */
  lemma InflightCounts(l: Limits, t0: real, acts: seq<Action>)
    ensures var b := Fresh(l, t0);
            Run(l, b, acts).inflight == Grants(l, b, acts) - Releases(acts) <==>
              forall n :: 0 <= n <= |acts| ==> Releases(acts[..n]) <= Grants(l, b, acts[..n])
  {
    var b := Fresh(l, t0);
    InflightCountsFrom(l, b, acts);
    assert forall n :: 0 <= n <= |acts| ==>
             (CoveredUpTo(l, b, acts, n) <==> Releases(acts[..n]) <= Grants(l, b, acts[..n]));
  }

  // ---------------------------------------------------------------- when a command is let through

  /** The grants among the actions from the j-th on. */
  function GrantsFrom(l: Limits, b: Bucket, acts: seq<Action>, j: int): nat
    requires 0 <= j <= |acts|
  {
    Grants(l, Run(l, b, acts[..j]), acts[j..])
  }

  /** Since time u, when the bucket held at most R, so many have been granted that a token is left at time t. */
  predicate Affords(l: Limits, u: real, granted: nat, t: real) {
    granted as real + 1.0 <= l.Rate() + Inflow(l.rate, t - u)
  }

  /** What the first action leaves for the ones from the j-th on. */
  lemma GrantsFromTail(l: Limits, b: Bucket, acts: seq<Action>, j: nat)
    requires acts != [] && j < |acts|
    ensures GrantsFrom(l, b, acts, j + 1) == GrantsFrom(l, Step(l, b, acts[0]), acts[1..], j)
  {
    assert acts[..j + 1][1..] == acts[1..][..j] && acts[j + 1..] == acts[1..][j..];
  }

  ghost predicate AffordsAll(l: Limits, b: Bucket, acts: seq<Action>, t: real) {
    forall j {:trigger acts[j]} :: 0 <= j < |acts| && acts[j].Acquire? ==>
      Affords(l, acts[j].at, GrantsFrom(l, b, acts, j), t)
  }

  lemma AffordsAllTail(l: Limits, b: Bucket, acts: seq<Action>, t: real)
    requires acts != []
    ensures AffordsAll(l, b, acts, t) <==>
              && (acts[0].Acquire? ==> Affords(l, acts[0].at, Grants(l, b, acts), t))
              && AffordsAll(l, Step(l, b, acts[0]), acts[1..], t)
  {
    var next, rest := Step(l, b, acts[0]), acts[1..];
    assert acts[..0] == [] && acts[0..] == acts;
    forall j: nat | j < |rest|
      ensures rest[j] == acts[j + 1] && GrantsFrom(l, next, rest, j) == GrantsFrom(l, b, acts, j + 1)
    {
      GrantsFromTail(l, b, acts, j);
    }
    if AffordsAll(l, b, acts, t) {
      forall j | 0 <= j < |rest| && rest[j].Acquire? ensures Affords(l, rest[j].at, GrantsFrom(l, next, rest, j), t) {
        assert acts[j + 1].Acquire?;
      }
    }
    if AffordsAll(l, next, rest, t) && (acts[0].Acquire? ==> Affords(l, acts[0].at, Grants(l, b, acts), t)) {
      forall j | 0 <= j < |acts| && acts[j].Acquire? ensures Affords(l, acts[j].at, GrantsFrom(l, b, acts, j), t) {
        if j > 0 { assert rest[j - 1].Acquire?; }
      }
    }
  }

  /** A token is left at time t exactly if one is left by what the bucket held and by every refill since. */
  lemma {:induction false} TokenLeft(l: Limits, b: Bucket, acts: seq<Action>, t: real)
    requires l.Valid()
    ensures Available(l, Run(l, b, acts), t) >= 1.0 <==>
              && Grants(l, b, acts) as real + 1.0 <= b.tokens + Inflow(l.rate, t - b.lastFill)
              && AffordsAll(l, b, acts, t)
    decreases |acts|
  {
    if acts != [] {
      TokenLeft(l, Step(l, b, acts[0]), acts[1..], t);
      AffordsAllTail(l, b, acts, t);
      if acts[0].Acquire? { InflowAdds(l.rate, acts[0].at - b.lastFill, t - acts[0].at); }
    }
  }

  /**
    Exactly when a command is let through, from the grants and times before it:
    a slot is free, and one more grant stays within R + R * T in every stretch
    from the beginning or from an earlier attempt to now.  Commands are refused
    for their rate exactly if it would not.
   */
  lemma GrantedExactlyWhen(l: Limits, t0: real, acts: seq<Action>, t: real)
    requires l.Valid()
    ensures var b := Fresh(l, t0);
            var fits := Affords(l, t0, Grants(l, b, acts), t) && AffordsAll(l, b, acts, t);
            && (VerdictAt(l, Run(l, b, acts), t).Granted? <==> fits && Run(l, b, acts).inflight < l.maxConcurrent)
            && (VerdictAt(l, Run(l, b, acts), t).RateLimited? <==> !fits)
  {
    TokenLeft(l, Fresh(l, t0), acts, t);
  }
}

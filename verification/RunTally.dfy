/** What the member loop of a closing wait counts. */
module RunTally {
  import opened RunTables

  function CountState(ms: seq<MemberResult>, state: RunState): nat {
    if ms == [] then 0
    else CountState(ms[..|ms| - 1], state) + if ms[|ms| - 1].state == state then 1 else 0
  }

  /**
    o describes the first k members: every terminal one once, in declaration
    order and with its state, the rest as pending, and the counters agree.
   */
  ghost predicate WellTallied(o: Outcome, members: seq<RunId>, k: nat) {
    && k <= |members|
    && |o.members| + o.pending == k
    && o.completed + o.failed + o.cancelled + o.pending == k
    && o.completed == CountState(o.members, Completed)
    && o.failed == CountState(o.members, Failed)
    && o.cancelled == CountState(o.members, Cancelled)
    && (forall i :: 0 <= i < |o.members| ==>
          && o.members[i].ordinal < k && o.members[i].run == members[o.members[i].ordinal]
          && o.members[i].state.Terminal())
    && (forall i, j :: 0 <= i < j < |o.members| ==> o.members[i].ordinal < o.members[j].ordinal)
  }

  lemma CountAppend(ms: seq<MemberResult>, m: MemberResult, state: RunState)
    ensures CountState(ms + [m], state) == CountState(ms, state) + if m.state == state then 1 else 0
  {
    assert (ms + [m])[..|ms|] == ms;
  }

  lemma AddResultWell(o: Outcome, members: seq<RunId>, k: nat, m: MemberResult)
    requires WellTallied(o, members, k) && k < |members|
    requires m.ordinal == k && m.run == members[k] && m.state.Terminal()
    ensures WellTallied(AddResult(o, m), members, k + 1)
  {
    var r := AddResult(o, m);
    CountAppend(o.members, m, Completed);
    CountAppend(o.members, m, Failed);
    CountAppend(o.members, m, Cancelled);
    assert r.members == o.members + [m];
    assert forall i :: 0 <= i < |o.members| ==> r.members[i] == o.members[i];
  }

  lemma {:induction false} TallyWell(db: Db, members: seq<RunId>, k: nat)
    requires k <= |members|
    ensures WellTallied(Tally(db, members, k), members, k)
    decreases k
  {
    if k > 0 {
      TallyWell(db, members, k - 1);
      if IsTerminal(db, members[k - 1]) {
        AddResultWell(Tally(db, members, k - 1), members, k - 1, ResultOf(db, k - 1, members[k - 1]));
      }
    }
  }

  /** The outcome reports what the member rows hold. */
  lemma {:induction false} TallyReads(db: Db, members: seq<RunId>, k: nat)
    requires k <= |members|
    ensures forall i :: 0 <= i < |Tally(db, members, k).members| ==>
              var m := Tally(db, members, k).members[i];
              IsTerminal(db, m.run) && m == ResultOf(db, m.ordinal, m.run)
    decreases k
  {
    if k > 0 { TallyReads(db, members, k - 1); }
  }

  /** Some reported member is the i-th. */
  predicate Names(o: Outcome, i: int) {
    exists j :: 0 <= j < |o.members| && o.members[j].ordinal == i
  }

  lemma NamesMore(o: Outcome, p: Outcome, m: MemberResult, i: int)
    requires p.members == o.members + [m]
    ensures Names(p, i) <==> Names(o, i) || m.ordinal == i
  {
    assert p.members[|o.members|] == m;
    assert forall j :: 0 <= j < |o.members| ==> p.members[j] == o.members[j];
  }

  /** The members it reports are the ones that have ended. */
  lemma {:induction false} TallyNames(db: Db, members: seq<RunId>, k: nat, i: nat)
    requires k <= |members|
    ensures Names(Tally(db, members, k), i) <==> i < k && IsTerminal(db, members[i])
    decreases k
  {
    if k > 0 {
      TallyNames(db, members, k - 1, i);
      if IsTerminal(db, members[k - 1]) {
        NamesMore(Tally(db, members, k - 1), Tally(db, members, k), ResultOf(db, k - 1, members[k - 1]), i);
      }
    }
  }

  lemma {:induction false} TallyPending(db: Db, members: seq<RunId>, k: nat)
    requires k <= |members|
    ensures Tally(db, members, k).pending == 0 <==> forall i :: 0 <= i < k ==> IsTerminal(db, members[i])
    decreases k
  {
    if k > 0 { TallyPending(db, members, k - 1); }
  }

  /** With nobody pending the outcome lists every member, position by position. */
  lemma {:induction false} CompleteTally(o: Outcome, members: seq<RunId>, i: nat)
    requires WellTallied(o, members, |members|) && o.pending == 0 && i < |members|
    ensures |o.members| == |members| && o.members[i].ordinal == i && o.members[i].run == members[i]
  {
    if i > 0 { CompleteTally(o, members, i - 1); }
    OrdinalFromEnd(o, members, i);
  }

  lemma {:induction false} OrdinalFromEnd(o: Outcome, members: seq<RunId>, i: nat)
    requires WellTallied(o, members, |members|) && o.pending == 0 && i < |members|
    ensures o.members[i].ordinal <= i
    decreases |members| - i
  {
    if i + 1 < |members| { OrdinalFromEnd(o, members, i + 1); }
  }
}

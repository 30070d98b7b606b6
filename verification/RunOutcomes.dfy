/**
  Waits, exactly: which step delivers a wait's outcome and what that outcome
  says, which step opens, closes, times out or abandons a wait, and which
  schedules a sweep; said from the state before the step and the action.
 */
module RunOutcomes {
  import opened Options
  import opened RunTables
  import opened RunMachine
  import opened RunTally
  import opened RunEffects
  import RunWaits

  // ---------------------------------------------------------------- what an outcome says

  /**
    An outcome that fits the members' rows: it names those that have ended, in
    order, with what their rows hold, counts them, and counts the others as
    pending.  It timed out exactly if somebody is pending, and is an error for
    the parent exactly if the parent then wanted its call to fail.
   */
  ghost predicate Fits(db: Db, wait: Wait, o: Outcome, isError: bool) {
    && WellTallied(o, wait.members, |wait.members|)
    && (forall j :: 0 <= j < |o.members| ==>
          var m := o.members[j];
          && m.run in db.runs
          && m.state == db.runs[m.run].state
          && m.result == db.runs[m.run].result && m.failure == db.runs[m.run].failure)
    && (forall i :: 0 <= i < |wait.members| ==> (Names(o, i) <==> IsTerminal(db, wait.members[i])))
    && (o.timedOut <==> o.pending > 0)
    && o.state == (if o.pending > 0 then TimedOut else Resolved)
    && (isError <==> o.timedOut && wait.policy.FailCall?)
  }

  /** The same runs, the same of them ended, and those with the same rows. */
  ghost predicate SameEnds(a: Db, b: Db) {
    && a.runs.Keys == b.runs.Keys
    && forall r {:trigger IsTerminal(b, r)} :: r in a.runs ==>
         (IsTerminal(a, r) <==> IsTerminal(b, r)) && (IsTerminal(a, r) ==> b.runs[r] == a.runs[r])
  }

  lemma FitsStays(a: Db, b: Db, x: Wait, y: Wait, o: Outcome, isError: bool)
    requires Fits(a, x, o, isError) && SameEnds(a, b) && y.members == x.members && y.policy == x.policy
    ensures Fits(b, y, o, isError)
  {
    forall j | 0 <= j < |o.members|
      ensures var m := o.members[j];
              && m.run in b.runs
              && m.state == b.runs[m.run].state
              && m.result == b.runs[m.run].result && m.failure == b.runs[m.run].failure
    {
      var m := o.members[j];
      assert m.state.Terminal();
      assert IsTerminal(a, m.run);
      assert IsTerminal(b, m.run);
    }
    forall i | 0 <= i < |y.members| ensures Names(o, i) <==> IsTerminal(b, y.members[i]) {
      assert Names(o, i) <==> IsTerminal(a, x.members[i]);
      assert x.members[i] in a.runs ==> (IsTerminal(a, x.members[i]) <==> IsTerminal(b, x.members[i]));
    }
  }

  lemma TallyFits(db: Db, wait: Wait, reason: CloseReason)
    requires Tally(db, wait.members, |wait.members|).pending > 0 ==> reason.ByDeadline?
    ensures var o := Settlement(db, wait, reason); Fits(db, wait, o, ResultIsError(wait, o))
  {
    var tally, o := Tally(db, wait.members, |wait.members|), Settlement(db, wait, reason);
    TallyNotTimedOut(db, wait.members, |wait.members|);
    assert WellTallied(o, wait.members, |wait.members|) by { TallyWell(db, wait.members, |wait.members|); }
    TallyReads(db, wait.members, |wait.members|);
    forall i | 0 <= i < |wait.members| ensures Names(o, i) <==> IsTerminal(db, wait.members[i]) {
      TallyNames(db, wait.members, |wait.members|, i);
      assert Names(o, i) <==> Names(tally, i);
    }
  }

  lemma {:induction false} TallyNotTimedOut(db: Db, members: seq<RunId>, k: nat)
    requires k <= |members|
    ensures !Tally(db, members, k).timedOut
    decreases k
  {
    if k > 0 { TallyNotTimedOut(db, members, k - 1); }
  }

  // ---------------------------------------------------------------- settling

  predicate Ended(db: Db, wait: Wait) {
    forall m :: m in wait.members ==> IsTerminal(db, m)
  }

  /** The wait's outcome can go to its parent now. */
  predicate Ready(db: Db, w: WaitId) {
    && w in db.waits && !db.waits[w].resumed && Ended(db, db.waits[w])
    && w.parent in db.runs && !IsTerminal(db, w.parent)
  }

  predicate OutcomeAt(a: Db, b: Db, i: int) {
    |a.log| <= i < |b.log| && b.log[i].ToolResulted?
  }

  /** Between a and b the outcome of w is delivered. */
  ghost predicate IsDelivered(a: Db, b: Db, w: WaitId) {
    exists i :: OutcomeAt(a, b, i) && b.log[i].wait == w
  }

  /** Every outcome delivered between a and b fits the rows of b. */
  ghost predicate AllFit(a: Db, b: Db) {
    && a.log <= b.log
    && forall i {:trigger OutcomeAt(a, b, i)} :: OutcomeAt(a, b, i) ==>
         b.log[i].wait in b.waits && Fits(b, b.waits[b.log[i].wait], b.log[i].outcome, b.log[i].isError)
  }

  /** The rows of waits are kept but for their state, their result and their slot. */
  ghost predicate SameWaits(a: Db, b: Db) {
    && a.waits.Keys == b.waits.Keys
    && forall w {:trigger w in b.waits} :: w in a.waits ==>
         b.waits[w].members == a.waits[w].members && b.waits[w].policy == a.waits[w].policy
         && b.waits[w].deadline == a.waits[w].deadline
  }

  ghost predicate Settles(a: Db, b: Db) {
    SameEnds(a, b) && SameWaits(a, b) && AllFit(a, b) && a.sweeps == b.sweeps
  }

  lemma SettlesOn(a: Db, b: Db, d: Db)
    requires Settles(a, b) && Settles(b, d)
    ensures Settles(a, d)
    ensures forall w :: IsDelivered(a, d, w) <==> IsDelivered(a, b, w) || IsDelivered(b, d, w)
  {
    forall r | r in a.runs
      ensures (IsTerminal(a, r) <==> IsTerminal(d, r)) && (IsTerminal(a, r) ==> d.runs[r] == a.runs[r])
    {
      assert IsTerminal(a, r) <==> IsTerminal(b, r);
    }
    forall w | w in a.waits ensures d.waits[w].members == a.waits[w].members && d.waits[w].policy == a.waits[w].policy
                                    && d.waits[w].deadline == a.waits[w].deadline {
      assert w in b.waits && w in d.waits;
    }
    forall i | OutcomeAt(a, d, i)
      ensures d.log[i].wait in d.waits && Fits(d, d.waits[d.log[i].wait], d.log[i].outcome, d.log[i].isError)
    {
      OutcomeKept(a, b, d, i);
    }
    forall w ensures IsDelivered(a, d, w) <==> IsDelivered(a, b, w) || IsDelivered(b, d, w) {
      DeliveredSplits(a, b, d, w);
    }
  }

  lemma OutcomeKept(a: Db, b: Db, d: Db, i: int)
    requires Settles(a, b) && Settles(b, d) && OutcomeAt(a, d, i)
    ensures d.log[i].wait in d.waits && Fits(d, d.waits[d.log[i].wait], d.log[i].outcome, d.log[i].isError)
  {
    if i < |b.log| {
      assert b.log[i] == d.log[i] && OutcomeAt(a, b, i);
      var w := d.log[i].wait;
      assert w in d.waits;
      FitsStays(b, d, b.waits[w], d.waits[w], d.log[i].outcome, d.log[i].isError);
    } else {
      assert OutcomeAt(b, d, i);
    }
  }

  lemma DeliveredSplits(a: Db, b: Db, d: Db, w: WaitId)
    requires a.log <= b.log <= d.log
    ensures IsDelivered(a, d, w) <==> IsDelivered(a, b, w) || IsDelivered(b, d, w)
  {
    if i :| OutcomeAt(a, d, i) && d.log[i].wait == w {
      if i < |b.log| {
        assert b.log[i] == d.log[i];
        assert OutcomeAt(a, b, i);
      } else {
        assert OutcomeAt(b, d, i);
      }
    }
    if i :| OutcomeAt(a, b, i) && b.log[i].wait == w {
      assert b.log[i] == d.log[i];
      assert OutcomeAt(a, d, i);
    }
    if i :| OutcomeAt(b, d, i) && d.log[i].wait == w { assert OutcomeAt(a, d, i); }
  }

  lemma SettlesNothing(a: Db, b: Db)
    requires SameEnds(a, b) && SameWaits(a, b) && a.log == b.log && a.sweeps == b.sweeps
    ensures Settles(a, b) && forall w :: !IsDelivered(a, b, w)
  {
  }

  // ---------------------------------------------------------------- closing one wait

  /** What an attempt to close does to a wait's row. */
  predicate RowClosed(x: Wait, y: Wait, closing: bool) {
    if closing then y.resumed && y.state == (if x.state.Open? then Resolved else x.state) else y == x
  }

  lemma TryCloseEnds(db: Db, w: WaitId, reason: CloseReason)
    ensures SameEnds(db, TryClose(db, w, reason)) && SameWaits(db, TryClose(db, w, reason))
    ensures db.sweeps == TryClose(db, w, reason).sweeps
  {
    if Closable(db, w, reason) { RunWaits.TryCloseShape(db, w, reason); }
  }

  lemma TryCloseSettles(db: Db, w: WaitId, reason: CloseReason)
    ensures Settles(db, TryClose(db, w, reason))
    ensures forall v :: IsDelivered(db, TryClose(db, w, reason), v) <==>
                          v == w && Closable(db, w, reason) && Resumes(db, w)
  {
    var b := TryClose(db, w, reason);
    TryCloseEnds(db, w, reason);
    if Closable(db, w, reason) && Resumes(db, w) {
      RunWaits.TryCloseShape(db, w, reason);
      var o := Settlement(db, db.waits[w], reason);
      TallyFits(db, db.waits[w], reason);
      FitsStays(db, b, db.waits[w], b.waits[w], o, ResultIsError(db.waits[w], o));
      assert OutcomeAt(db, b, |db.log|) && b.log[|db.log|].wait == w;
    } else {
      if Closable(db, w, reason) { RunWaits.TryCloseShape(db, w, reason); }
      SettlesNothing(db, b);
    }
  }

  lemma ChildCloses(db: Db, w: WaitId)
    requires w in db.waits
    ensures Closable(db, w, ByChild) <==> Ended(db, db.waits[w])
    ensures RowClosed(db.waits[w], TryClose(db, w, ByChild).waits[w], Ended(db, db.waits[w]))
  {
    EndedIsClosable(db, w);
    if Ended(db, db.waits[w]) { RunWaits.TryCloseShape(db, w, ByChild); }
  }

  // ---------------------------------------------------------------- closing all waits of a member

  lemma ReadySame(a: Db, b: Db, w: WaitId)
    requires SameEnds(a, b) && w in a.waits && w in b.waits && b.waits[w] == a.waits[w]
    ensures Ready(a, w) <==> Ready(b, w)
    ensures Ended(a, a.waits[w]) <==> Ended(b, b.waits[w])
  {
    forall m ensures IsTerminal(a, m) <==> IsTerminal(b, m) {
      if m in a.runs { assert IsTerminal(a, m) <==> IsTerminal(b, m); } else { assert m !in b.runs; }
    }
  }

  lemma OthersStay(db: Db, w: WaitId, reason: CloseReason, v: WaitId)
    requires v in db.waits && v != w
    ensures v in TryClose(db, w, reason).waits && TryClose(db, w, reason).waits[v] == db.waits[v]
  {
    if Closable(db, w, reason) { RunWaits.TryCloseShape(db, w, reason); }
  }

  lemma {:induction false} ResolveAllSettles(db: Db, ws: seq<WaitId>)
    ensures Settles(db, ResolveAll(db, ws))
    decreases |ws|
  {
    if ws == [] {
      SettlesNothing(db, db);
    } else {
      var b := TryClose(db, ws[0], ByChild);
      TryCloseSettles(db, ws[0], ByChild);
      ResolveAllSettles(b, ws[1..]);
      SettlesOn(db, b, ResolveAll(b, ws[1..]));
    }
  }

  lemma {:induction false} ResolveAllRow(db: Db, ws: seq<WaitId>, w: WaitId)
    requires Distinct(ws) && w in db.waits
    ensures w in ResolveAll(db, ws).waits
    ensures RowClosed(db.waits[w], ResolveAll(db, ws).waits[w], w in ws && Ended(db, db.waits[w]))
    ensures IsDelivered(db, ResolveAll(db, ws), w) <==> w in ws && Ready(db, w)
    decreases |ws|
  {
    if ws == [] {
      SettlesNothing(db, db);
    } else {
      var b, rest := TryClose(db, ws[0], ByChild), ws[1..];
      TryCloseSettles(db, ws[0], ByChild);
      ResolveAllSettles(b, rest);
      SettlesOn(db, b, ResolveAll(b, rest));
      assert w in b.waits;
      ResolveAllRow(b, rest, w);
      if w == ws[0] {
        assert w !in rest;
        ChildCloses(db, w);
      } else {
        assert w in ws <==> w in rest;
        OthersStay(db, ws[0], ByChild, w);
        ReadySame(db, b, w);
      }
    }
  }

  // ---------------------------------------------------------------- conditions on the state before a step

  /** A member other than the parent ends, and it is the last. */
  predicate LastEnds(s: State, a: Action, w: WaitId) {
    && w in s.db.waits && s.db.waits[w].state.Open?
    && exists q :: q in s.db.waits[w].members && q != w.parent && Ends(s, a, q)
                   && forall m :: m in s.db.waits[w].members ==> m == q || IsTerminal(s.db, m)
  }

  /** The parent of an open wait ends or is cancelled. */
  predicate Abandons(s: State, a: Action, w: WaitId) {
    && w in s.db.waits && s.db.waits[w].state.Open?
    && (Ends(s, a, w.parent) || CancelledByHandler(s, a, w.parent))
  }

  /** A sweep whose time has come claims a batch of waits. */
  predicate Sweeps(c: Config, s: State, a: Action) {
    && a.Sweep? && a.sweep.SweepClaim? && a.sweep.sweeper !in s.sweepers
    && a.sweep.job in s.db.liveSweeps && a.sweep.job < |s.db.sweeps| && s.db.sweeps[a.sweep.job] <= s.now
    && IsBatch(s.db, s.now, c.batch, a.sweep.due, a.sweep.locked)
  }

  predicate TimesOut(c: Config, s: State, a: Action, w: WaitId) {
    Sweeps(c, s, a) && w in a.sweep.due
  }

  /** The sweeper that has w in hand comes to it. */
  predicate Resolves(s: State, a: Action, w: WaitId) {
    && a.Sweep? && a.sweep.SweepResolve? && a.sweep.sweeper in s.sweepers
    && s.sweepers[a.sweep.sweeper].Resolving? && s.sweepers[a.sweep.sweeper].todo != []
    && s.sweepers[a.sweep.sweeper].todo[0] == w
  }

  /** A step commits and waits for children. */
  predicate Opens(s: State, a: Action, w: WaitId) {
    && Commits(s, a, w.parent) && a.work.out.Park?
    && w.step == JobOf(s, a.work.worker).step && w.call == a.work.out.call
  }

  // ---------------------------------------------------------------- a run ends

  /** From s to mid a step has written its own rows and told of nothing but itself. */
  ghost predicate Writes(s: Db, mid: Db) {
    && s.log <= mid.log && (forall i :: |s.log| <= i < |mid.log| ==> !mid.log[i].ToolResulted?)
  }

  lemma WritesThenSettles(s: Db, mid: Db, t: Db)
    requires Writes(s, mid) && AllFit(mid, t)
    ensures AllFit(s, t) && forall w :: IsDelivered(s, t, w) <==> IsDelivered(mid, t, w)
  {
    forall i ensures OutcomeAt(s, t, i) <==> OutcomeAt(mid, t, i) {
      assert |s.log| <= i < |mid.log| ==> mid.log[i] == t.log[i];
    }
  }

  /** The rows of a run that is ending, before its waits are settled. */
  ghost predicate Ending(s: Db, mid: Db, q: RunId) {
    && Writes(s, mid) && mid.waits == s.waits && mid.sweeps == s.sweeps && q in s.runs
    && mid.runs.Keys == s.runs.Keys && IsTerminal(mid, q)
    && forall r {:trigger IsTerminal(mid, r)} :: r != q ==> (IsTerminal(mid, r) <==> IsTerminal(s, r))
  }

  lemma StopsAt(s: State, a: Action, q: RunId) returns (mid: Db)
    requires SeesFlag(s, a, q) || Fails(s, a, q)
    ensures Ending(s.db, mid, q) && WorkStep(s, a.work).db == Settle(mid, q, a.work.order)
    ensures Lists(s.db, q, a.work.order)
  {
    if SeesFlag(s, a, q) {
      mid := Append(SetState(s.db, q, Cancelled, ""), RunCancelled(q, true));
    } else {
      mid := Append(SetState(s.db, q, Failed, a.work.reason), RunFailed(q));
    }
  }

  lemma FinishesAt(s: State, a: Action, q: RunId) returns (mid: Db)
    requires RunWaits.Inv(s) && Finishes(s, a, q)
    ensures Ending(s.db, mid, q) && WorkStep(s, a.work).db == Settle(mid, q, a.work.order)
    ensures Lists(s.db, q, a.work.order)
  {
    CommitGuards(s, a, q);
    var recorded := RecordStep(s.db, JobOf(s, a.work.worker), s.workers[a.work.worker].history, a.work.body);
    var run := recorded.runs[q].(state := Completed, failure := "", result := a.work.out.text);
    mid := Append(PutRun(recorded, q, run), RunCompleted(q));
  }

  lemma EndsAt(s: State, a: Action, q: RunId) returns (mid: Db, t: Db)
    requires RunWaits.Inv(s) && Ends(s, a, q)
    ensures t == WorkStep(s, a.work).db && Ending(s.db, mid, q) && t == Settle(mid, q, a.work.order)
    ensures Lists(s.db, q, a.work.order)
  {
    if Finishes(s, a, q) { mid := FinishesAt(s, a, q); } else { mid := StopsAt(s, a, q); }
    t := Settle(mid, q, a.work.order);
  }

  lemma AbandonEnds(db: Db, q: RunId)
    ensures SameEnds(db, Abandon(db, q)) && SameWaits(db, Abandon(db, q))
    ensures Settles(db, Abandon(db, q)) && forall w :: !IsDelivered(db, Abandon(db, q), w)
  {
    SettlesNothing(db, Abandon(db, q));
  }

  lemma SettleSettles(s: Db, mid: Db, q: RunId, order: seq<WaitId>)
    requires Ending(s, mid, q)
    ensures Settles(mid, Settle(mid, q, order)) && AllFit(s, Settle(mid, q, order))
    ensures forall w :: IsDelivered(s, Settle(mid, q, order), w) <==>
                          IsDelivered(Abandon(mid, q), Settle(mid, q, order), w)
  {
    var t := Settle(mid, q, order);
    AbandonEnds(mid, q);
    ResolveAllSettles(Abandon(mid, q), order);
    SettlesOn(mid, Abandon(mid, q), t);
    WritesThenSettles(s, mid, t);
  }

  /** What happens to a wait when a run ends. */
  lemma SettleRow(s: Db, mid: Db, q: RunId, order: seq<WaitId>, w: WaitId)
    requires RunWaits.Good(s, []) && Ending(s, mid, q) && Lists(s, q, order) && w in s.waits
    ensures var wait, open, t := s.waits[w], s.waits[w].state.Open?, Settle(mid, q, order);
            var last := q in wait.members && forall m :: m in wait.members ==> m == q || IsTerminal(s, m);
            && w in t.waits
            && (if open && w.parent == q then t.waits[w].state.Abandoned? && t.waits[w].resumed
                else RowClosed(wait, t.waits[w], open && last))
            && (IsDelivered(s, t, w) <==> open && w.parent != q && last)
  {
    var db, wait, t := Abandon(mid, q), s.waits[w], Settle(mid, q, order);
    SettleSettles(s, mid, q, order);
    ResolveAllRow(db, order, w);
    assert w in WaitsToSettle(s, q) <==> wait.state.Open? && w.parent != q && q in wait.members;
    if wait.state.Open? && w.parent != q {
      assert RunWaits.IsOpen(s, w) && RunWaits.RowOk(s, w, wait);
      assert db.waits[w] == wait;
      assert forall m :: m in wait.members ==> (IsTerminal(db, m) <==> IsTerminal(mid, m));
      assert IsTerminal(mid, w.parent) <==> IsTerminal(s, w.parent);
    }
  }

  // ---------------------------------------------------------------- a wait opens

  lemma NothingDelivered(s: Db, t: Db)
    requires Writes(s, t)
    ensures AllFit(s, t) && forall w :: !IsDelivered(s, t, w)
  {
  }

  /** w is new in t, as the step asked for; it is open unless all its members had ended. */
  ghost predicate Opened(s: Db, t: Db, w: WaitId, out: StepOutcome, now: Time, ended: bool)
    requires out.Park?
  {
    && w !in s.waits && t.waits.Keys == s.waits.Keys + {w}
    && (forall v {:trigger t.waits[v]} :: v in s.waits ==> t.waits[v] == s.waits[v])
    && t.waits[w].members == out.members && t.waits[w].policy == out.policy
    && t.waits[w].deadline == now + out.timeout
    && t.waits[w].state == (if ended then Resolved else Open) && (t.waits[w].resumed <==> ended)
    && t.sweeps == s.sweeps + (if ended then [] else [now + out.timeout + 250])
    && AllFit(s, t) && (forall v {:trigger IsDelivered(s, t, v)} :: IsDelivered(s, t, v) <==> v == w && ended)
  }

  function Asked(out: StepOutcome, now: Time): Wait
    requires out.Park?
  {
    Wait(Open, out.members, now + out.timeout, out.policy, false, None)
  }

  /** The wait's row has just been inserted. */
  ghost predicate Creates(s: Db, created: Db, w: WaitId, out: StepOutcome, now: Time, ended: bool)
    requires out.Park?
  {
    && w !in s.waits && created.waits == s.waits[w := Asked(out, now)]
    && created.sweeps == s.sweeps && Writes(s, created)
    && w.parent in created.runs && created.runs[w.parent].state.Running?
    && (ended <==> Ended(created, Asked(out, now)))
  }

  function CreatedDb(s: State, a: Action, w: WaitId): Db
    requires Opens(s, a, w)
  {
    var job := JobOf(s, a.work.worker);
    PutWait(RecordStep(s.db, job, s.workers[a.work.worker].history, a.work.body), w, Asked(a.work.out, s.now))
  }

  lemma ParkCreates(s: State, a: Action, w: WaitId)
    requires Opens(s, a, w) && w !in s.db.waits
    ensures Creates(s.db, CreatedDb(s, a, w), w, a.work.out, s.now, AllEnded(s, a.work.out.members))
  {
    var created := CreatedDb(s, a, w);
    assert forall m :: IsTerminal(created, m) <==> IsTerminal(s.db, m);
  }

  lemma ParkEvaluates(s: State, a: Action, w: WaitId)
    requires RunWaits.Inv(s) && Opens(s, a, w)
    ensures w !in s.db.waits
    ensures WorkStep(s, a.work).db == Evaluate(CreatedDb(s, a, w), w, s.now + a.work.out.timeout)
  {
    var job := JobOf(s, a.work.worker);
    CommitGuards(s, a, w.parent);
    RunWaits.ParkTxEvaluates(RecordStep(s.db, job, s.workers[a.work.worker].history, a.work.body), w.parent, job.step,
                             a.work.out, s.now);
  }

  lemma ParkOpens(s: State, a: Action, w: WaitId) returns (t: Db)
    requires RunWaits.Inv(s) && Opens(s, a, w)
    ensures t == WorkStep(s, a.work).db
    ensures Opened(s.db, t, w, a.work.out, s.now, AllEnded(s, a.work.out.members))
  {
    t := WorkStep(s, a.work).db;
    ParkEvaluates(s, a, w);
    ParkCreates(s, a, w);
    CreatedCloses(s.db, CreatedDb(s, a, w), t, w, a.work.out, s.now, AllEnded(s, a.work.out.members));
  }

  /** A wait is looked at once as soon as it exists. */
  lemma CreatedCloses(s: Db, created: Db, t: Db, w: WaitId, out: StepOutcome, now: Time, ended: bool)
    requires out.Park? && Creates(s, created, w, out, now, ended) && t == Evaluate(created, w, now + out.timeout)
    ensures Opened(s, t, w, out, now, ended)
  {
    var closed := TryClose(created, w, ByChild);
    ChildCloses(created, w);
    TryCloseSettles(created, w, ByChild);
    forall v | v in s.waits ensures closed.waits[v] == s.waits[v] { OthersStay(created, w, ByChild, v); }
    if ended {
      WritesThenSettles(s, created, closed);
    } else {
      NothingDelivered(s, t);
    }
  }

  // ---------------------------------------------------------------- other steps

  lemma ApiWaits(s: State, a: Action)
    requires a.Api?
    ensures var t := ApiStep(s, a.api).db;
            && Writes(s.db, t) && t.sweeps == s.db.sweeps
            && t.waits == if CancelledByHandler(s, a, a.api.run) then Abandon(s.db, a.api.run).waits else s.db.waits
  {
    match a.api
    case CancelRun(r) => CancelWaits(s, a, r);
    case _ =>
  }

  lemma CancelWaits(s: State, a: Action, r: RunId)
    requires a == Api(CancelRun(r))
    ensures var t := ApiStep(s, a.api).db;
            && Writes(s.db, t) && t.sweeps == s.db.sweeps
            && t.waits == if CancelledByHandler(s, a, r) then Abandon(s.db, r).waits else s.db.waits
  {
  }

  /** A worker's step that neither ends a run nor opens a wait leaves waits alone. */
  lemma WorkWaits(s: State, a: Action)
    requires RunWaits.Inv(s) && a.Work? && (forall q :: !Ends(s, a, q)) && (forall w :: !Opens(s, a, w))
    ensures var t := WorkStep(s, a.work).db; Writes(s.db, t) && t.sweeps == s.db.sweeps && t.waits == s.db.waits
  {
    if a.work.Commit? && Executes(s, a.work.worker) {
      CommitWaits(s, a, JobOf(s, a.work.worker).run);
    } else if a.work.Claim? && a.work.job < |s.db.jobs| {
      assert !Ends(s, a, s.db.jobs[a.work.job].run);
    } else if (a.work.Fail? || a.work.StreamCancel?) && Executes(s, a.work.worker) {
      assert !Ends(s, a, JobOf(s, a.work.worker).run);
    }
  }

  lemma CommitWaits(s: State, a: Action, r: RunId)
    requires RunWaits.Inv(s) && a.Work? && a.work.Commit?
    requires Executes(s, a.work.worker) && JobOf(s, a.work.worker).run == r
    requires !Ends(s, a, r) && forall w :: !Opens(s, a, w)
    ensures var t := WorkStep(s, a.work).db; Writes(s.db, t) && t.sweeps == s.db.sweeps && t.waits == s.db.waits
  {
    if WorksOn(s, a, r) && WellFormed(a.work.out) && s.db.runs[r].state.Running? && !s.db.runs[r].cancelRequested {
      CommitGuards(s, a, r);
      if Commits(s, a, r) {
        assert a.work.out.Park? ==> !Opens(s, a, WaitId(r, JobOf(s, a.work.worker).step, a.work.out.call));
        QuietCommit(s, a, r);
      }
    }
  }

  lemma QuietCommit(s: State, a: Action, r: RunId)
    requires Commits(s, a, r) && (a.work.out.Ask? || a.work.out.Continue?)
    ensures var t := WorkStep(s, a.work).db; Writes(s.db, t) && t.sweeps == s.db.sweeps && t.waits == s.db.waits
  {
  }

  lemma EndsSubject(s: State, a: Action, q: RunId)
    requires Ends(s, a, q)
    ensures a.Work? && RunAt(s, a.work) == Some(q)
  {
  }

  lemma SweepWaits(c: Config, s: State, a: Action)
    requires a.Sweep? && !a.sweep.SweepResolve?
    ensures var t := SweepStep(c, s, a.sweep).db;
            && t.log == s.db.log
            && t.waits == if Sweeps(c, s, a) then ClaimDueTx(s.db, a.sweep.due).waits else s.db.waits
  {
  }

  // ---------------------------------------------------------------- all steps

  /** A wait's row after a step, and whether its outcome was delivered. */
  ghost predicate After(c: Config, s: State, a: Action, t: Db, w: WaitId)
    requires w in s.db.waits
  {
    var wait := s.db.waits[w];
    && w in t.waits
    && t.waits[w].members == wait.members && t.waits[w].deadline == wait.deadline && t.waits[w].policy == wait.policy
    && t.waits[w].state == (if TimesOut(c, s, a, w) then TimedOut
                            else if Abandons(s, a, w) then Abandoned
                            else if LastEnds(s, a, w) then Resolved
                            else wait.state)
    && (t.waits[w].resumed <==> wait.resumed || Abandons(s, a, w) || LastEnds(s, a, w) || Resolves(s, a, w))
    && (IsDelivered(s.db, t, w) <==>
          LastEnds(s, a, w) || (Resolves(s, a, w) && !wait.resumed && !IsTerminal(s.db, w.parent)))
  }

  lemma EndAfter(c: Config, s: State, a: Action, q: RunId, w: WaitId)
    requires RunWaits.Inv(s) && Ends(s, a, q) && w in s.db.waits
    ensures After(c, s, a, WorkStep(s, a.work).db, w) && AllFit(s.db, WorkStep(s, a.work).db)
  {
    var mid, t := EndsAt(s, a, q);
    SettleSettles(s.db, mid, q, a.work.order);
    SettleRow(s.db, mid, q, a.work.order, w);
    assert w in mid.waits && w in t.waits;
    LastIs(s, a, q, w);
  }

  /** Only one run ends in a step. */
  lemma LastIs(s: State, a: Action, q: RunId, w: WaitId)
    requires Ends(s, a, q) && w in s.db.waits
    ensures LastEnds(s, a, w) <==>
              && s.db.waits[w].state.Open? && w.parent != q && q in s.db.waits[w].members
              && forall m :: m in s.db.waits[w].members ==> m == q || IsTerminal(s.db, m)
    ensures Abandons(s, a, w) <==> s.db.waits[w].state.Open? && w.parent == q
  {
    EndsSubject(s, a, q);
    forall r | Ends(s, a, r) ensures r == q { EndsSubject(s, a, r); }
  }

  lemma ApiAfter(c: Config, s: State, a: Action, w: WaitId)
    requires a.Api? && w in s.db.waits
    ensures After(c, s, a, ApiStep(s, a.api).db, w) && AllFit(s.db, ApiStep(s, a.api).db)
  {
    ApiWaits(s, a);
    NothingDelivered(s.db, ApiStep(s, a.api).db);
    assert CancelledByHandler(s, a, w.parent) <==> w.parent == a.api.run && CancelledByHandler(s, a, a.api.run);
  }

  /** A step without deliveries that leaves the wait's row alone. */
  lemma StillAfter(c: Config, s: State, a: Action, t: Db, w: WaitId)
    requires a.Work? || a.Tick? || (a.Sweep? && !a.sweep.SweepClaim? && !Resolves(s, a, w))
    requires w in s.db.waits && w in t.waits && t.waits[w] == s.db.waits[w] && !IsDelivered(s.db, t, w)
    requires forall q :: !Ends(s, a, q)
    ensures After(c, s, a, t, w)
  {
    assert a.Work? || a.Tick? || a.Sweep? ==> !CancelledByHandler(s, a, w.parent);
  }

  lemma WorkAfter(c: Config, s: State, a: Action, w: WaitId)
    requires RunWaits.Inv(s) && a.Work? && w in s.db.waits
    ensures After(c, s, a, WorkStep(s, a.work).db, w) && AllFit(s.db, WorkStep(s, a.work).db)
  {
    if q :| Ends(s, a, q) {
      EndAfter(c, s, a, q, w);
    } else if v :| Opens(s, a, v) {
      var t := ParkOpens(s, a, v);
      assert t.waits[w] == s.db.waits[w] && !IsDelivered(s.db, t, w);
      StillAfter(c, s, a, t, w);
    } else {
      var t := WorkStep(s, a.work).db;
      WorkWaits(s, a);
      NothingDelivered(s.db, t);
      StillAfter(c, s, a, t, w);
    }
  }

  /** A wait a sweeper has in hand is resumed when its turn comes. */
  lemma ResolveAfter(c: Config, s: State, a: Action, w: WaitId)
    requires RunWaits.Inv(s) && a.Sweep? && a.sweep.SweepResolve? && w in s.db.waits
    ensures After(c, s, a, SweepStep(c, s, a.sweep).db, w) && AllFit(s.db, SweepStep(c, s, a.sweep).db)
  {
    var t := SweepStep(c, s, a.sweep).db;
    if SweepStep(c, s, a.sweep) != s {
      var v := s.sweepers[a.sweep.sweeper].todo[0];
      TryCloseSettles(s.db, v, ByDeadline);
      assert v in s.sweepers[a.sweep.sweeper].todo;
      if w == v {
        assert s.db.waits[w].state.TimedOut? && RunWaits.RowOk(s.db, w, s.db.waits[w]);
        RunWaits.TryCloseShape(s.db, w, ByDeadline);
      } else {
        OthersStay(s.db, v, ByDeadline, w);
        StillAfter(c, s, a, t, w);
      }
    } else {
      NothingDelivered(s.db, t);
      StillAfter(c, s, a, t, w);
    }
  }

  lemma SweepAfter(c: Config, s: State, a: Action, w: WaitId)
    requires RunWaits.Inv(s) && a.Sweep? && w in s.db.waits
    ensures After(c, s, a, SweepStep(c, s, a.sweep).db, w) && AllFit(s.db, SweepStep(c, s, a.sweep).db)
  {
    if a.sweep.SweepResolve? {
      ResolveAfter(c, s, a, w);
    } else {
      SweepWaits(c, s, a);
      NothingDelivered(s.db, SweepStep(c, s, a.sweep).db);
    }
  }

  lemma StepAfter(c: Config, s: State, a: Action, w: WaitId)
    requires RunWaits.Inv(s) && w in s.db.waits
    ensures After(c, s, a, Next(c, s, a).db, w)
  {
    match a
    case Api(_) => ApiAfter(c, s, a, w);
    case Work(_) => WorkAfter(c, s, a, w);
    case Sweep(_) => SweepAfter(c, s, a, w);
    case Tick(_) =>
      NothingDelivered(s.db, s.db);
      StillAfter(c, s, a, s.db, w);
  }

  /** Rows appear only by parking, and what is delivered fits. */
  ghost predicate Appears(s: State, a: Action, t: Db) {
    && AllFit(s.db, t)
    && (forall w {:trigger w in t.waits} :: w in t.waits ==> w in s.db.waits || Opens(s, a, w))
    && (forall w {:trigger Opens(s, a, w)} :: Opens(s, a, w) ==>
          Opened(s.db, t, w, a.work.out, s.now, AllEnded(s, a.work.out.members)))
  }

  lemma StillAppears(s: State, a: Action, t: Db)
    requires AllFit(s.db, t) && t.waits.Keys == s.db.waits.Keys && forall w :: !Opens(s, a, w)
    ensures Appears(s, a, t)
  {
  }

  lemma EndAppears(s: State, a: Action, q: RunId)
    requires RunWaits.Inv(s) && Ends(s, a, q)
    ensures Appears(s, a, WorkStep(s, a.work).db)
  {
    var mid, t := EndsAt(s, a, q);
    SettleSettles(s.db, mid, q, a.work.order);
    forall w ensures !Opens(s, a, w) { EndsSubject(s, a, q); }
    StillAppears(s, a, t);
  }

  lemma WorkAppears(s: State, a: Action)
    requires RunWaits.Inv(s) && a.Work?
    ensures Appears(s, a, WorkStep(s, a.work).db)
  {
    if q :| Ends(s, a, q) {
      EndAppears(s, a, q);
    } else if v :| Opens(s, a, v) {
      var t := ParkOpens(s, a, v);
      forall w | Opens(s, a, w) ensures w == v {}
    } else {
      WorkWaits(s, a);
      NothingDelivered(s.db, WorkStep(s, a.work).db);
      StillAppears(s, a, WorkStep(s, a.work).db);
    }
  }

  lemma SweepAppears(c: Config, s: State, a: Action)
    requires a.Sweep?
    ensures Appears(s, a, SweepStep(c, s, a.sweep).db)
  {
    var t := SweepStep(c, s, a.sweep).db;
    if a.sweep.SweepResolve? && SweepStep(c, s, a.sweep) != s {
      TryCloseSettles(s.db, s.sweepers[a.sweep.sweeper].todo[0], ByDeadline);
    } else {
      if !a.sweep.SweepResolve? { SweepWaits(c, s, a); }
      NothingDelivered(s.db, t);
    }
    StillAppears(s, a, t);
  }

  lemma StepAppears(c: Config, s: State, a: Action)
    requires RunWaits.Inv(s)
    ensures Appears(s, a, Next(c, s, a).db)
  {
    match a
    case Api(_) =>
      ApiWaits(s, a);
      NothingDelivered(s.db, ApiStep(s, a.api).db);
      StillAppears(s, a, ApiStep(s, a.api).db);
    case Work(_) => WorkAppears(s, a);
    case Sweep(_) => SweepAppears(c, s, a);
    case Tick(_) =>
      NothingDelivered(s.db, s.db);
      StillAppears(s, a, s.db);
  }

  // ---------------------------------------------------------------- theorems

  /**
    Every outcome a step delivers: it is an error exactly if it timed out under
    the policy that fails the call, it timed out exactly if a member is pending,
    and it fits the rows of the members after the step.
   */
  lemma OutcomeExactly(c: Config, acts: seq<Action>, a: Action, i: nat)
    requires var s := Exec(c, acts); OutcomeAt(s.db, Next(c, s, a).db, i)
    ensures var db := Next(c, Exec(c, acts), a).db;
            var e := db.log[i];
            && e.wait in db.waits
            && (e.isError <==> e.outcome.timedOut && db.waits[e.wait].policy.FailCall?)
            && (e.outcome.timedOut <==> e.outcome.pending > 0)
            && e.outcome.state == (if e.outcome.pending > 0 then TimedOut else Resolved)
            && Fits(db, db.waits[e.wait], e.outcome, e.isError)
  {
    RunWaits.ExecInv(c, acts);
    StepAppears(c, Exec(c, acts), a);
  }

  /**
    Exactly when a step delivers a wait's outcome: its last member ends, its
    sweeper comes to it before anybody has resumed it and while the parent
    lives, or it is made over members that have all ended.
   */
  lemma DeliveredExactlyWhen(c: Config, acts: seq<Action>, a: Action, w: WaitId)
    ensures var s := Exec(c, acts);
            IsDelivered(s.db, Next(c, s, a).db, w) <==>
              || LastEnds(s, a, w)
              || (Resolves(s, a, w) && w in s.db.waits && !s.db.waits[w].resumed && !IsTerminal(s.db, w.parent))
              || (Opens(s, a, w) && AllEnded(s, a.work.out.members))
  {
    var s := Exec(c, acts);
    RunWaits.ExecInv(c, acts);
    StepAppears(c, s, a);
    if w in s.db.waits {
      StepAfter(c, s, a, w);
      assert !Opens(s, a, w);
    } else if !Opens(s, a, w) {
      assert w !in Next(c, s, a).db.waits;
    }
  }

  /** A wait after a step: its state, its slot, and what never changes about it. */
  lemma WaitExactly(c: Config, acts: seq<Action>, a: Action, w: WaitId)
    requires w in Exec(c, acts).db.waits
    ensures var s := Exec(c, acts);
            && w in Next(c, s, a).db.waits
            && var wait, next := s.db.waits[w], Next(c, s, a).db.waits[w];
               && next.members == wait.members && next.deadline == wait.deadline && next.policy == wait.policy
               && next.state == (if TimesOut(c, s, a, w) then TimedOut
                                 else if Abandons(s, a, w) then Abandoned
                                 else if LastEnds(s, a, w) then Resolved
                                 else wait.state)
               && (next.resumed <==> wait.resumed || Abandons(s, a, w) || LastEnds(s, a, w) || Resolves(s, a, w))
               && (TimesOut(c, s, a, w) ==> wait.state.Open? && wait.deadline <= s.now)
  {
    RunWaits.ExecInv(c, acts);
    StepAfter(c, Exec(c, acts), a, w);
  }

  /** A sweep claims open waits past their deadline, a batch at most, and leaves one only if the batch is full. */
  lemma ClaimsExactly(c: Config, s: State, a: Action, w: WaitId)
    requires Sweeps(c, s, a) && w in s.db.waits
    ensures var due := a.sweep.due;
            var late := s.db.waits[w].state.Open? && s.db.waits[w].deadline <= s.now && w !in a.sweep.locked;
            && |due| <= c.batch && Distinct(due)
            && (w in due ==> late)
            && (late && w !in due ==>
                  && |due| == c.batch
                  && forall v :: v in due ==> v in s.db.waits && s.db.waits[v].deadline <= s.db.waits[w].deadline)
  {
  }

  /** Exactly when a wait comes into being, and what its row is then. */
  lemma OpenedExactlyWhen(c: Config, acts: seq<Action>, a: Action, w: WaitId)
    requires w !in Exec(c, acts).db.waits
    ensures var s := Exec(c, acts);
            var waits := Next(c, s, a).db.waits;
            && (w in waits <==> Opens(s, a, w))
            && (Opens(s, a, w) ==>
                  && waits[w].members == a.work.out.members && waits[w].policy == a.work.out.policy
                  && waits[w].deadline == s.now + a.work.out.timeout
                  && waits[w].state == (if AllEnded(s, a.work.out.members) then Resolved else Open))
  {
    RunWaits.ExecInv(c, acts);
    StepAppears(c, Exec(c, acts), a);
  }

  /** A sweep that gives up, or whose batch was full when it is through, is repeated. */
  predicate Rearms(s: State, a: Action) {
    && a.Sweep? && (a.sweep.SweepFail? || a.sweep.SweepDone?) && a.sweep.sweeper in s.sweepers
    && s.sweepers[a.sweep.sweeper].Resolving?
    && (if a.sweep.SweepFail? then s.sweepers[a.sweep.sweeper].todo != []
        else s.sweepers[a.sweep.sweeper].todo == [] && s.sweepers[a.sweep.sweeper].full)
  }

  lemma WorkSchedules(s: State, a: Action)
    requires RunWaits.Inv(s) && a.Work?
    ensures var t := WorkStep(s, a.work).db;
            t.sweeps == s.db.sweeps + if Schedules(s, a) then [s.now + a.work.out.timeout + 250] else []
  {
    if q :| Ends(s, a, q) {
      var mid, t := EndsAt(s, a, q);
      SettleSettles(s.db, mid, q, a.work.order);
      forall w ensures !Opens(s, a, w) { EndsSubject(s, a, q); }
    } else if v :| Opens(s, a, v) {
      var t := ParkOpens(s, a, v);
    } else {
      WorkWaits(s, a);
    }
  }

  lemma SweepSchedules(c: Config, s: State, a: Action)
    requires a.Sweep?
    ensures SweepStep(c, s, a.sweep).db.sweeps == s.db.sweeps + Scheduled(c, s, a)
  {
    if a.sweep.SweepResolve? && SweepStep(c, s, a.sweep) != s {
      TryCloseEnds(s.db, s.sweepers[a.sweep.sweeper].todo[0], ByDeadline);
    }
  }

  ghost predicate Schedules(s: State, a: Action)
    requires a.Work?
  {
    exists w :: Opens(s, a, w) && !AllEnded(s, a.work.out.members)
  }

  /** 250 ms after a new wait's deadline, or a retry from now. */
  ghost function Scheduled(c: Config, s: State, a: Action): seq<Time> {
    match a
    case Work(_) => if Schedules(s, a) then [s.now + a.work.out.timeout + 250] else []
    case Sweep(_) => if Rearms(s, a) then [s.now + c.retry] else []
    case _ => []
  }

  lemma StepSchedules(c: Config, s: State, a: Action)
    requires RunWaits.Inv(s)
    ensures Next(c, s, a).db.sweeps == s.db.sweeps + Scheduled(c, s, a)
  {
    match a
    case Api(_) => ApiSchedules(c, s, a);
    case Work(_) => WorkScheduled(c, s, a);
    case Sweep(_) => SweepSchedules(c, s, a);
    case Tick(_) => assert s.db.sweeps + [] == s.db.sweeps;
  }

  lemma ApiSchedules(c: Config, s: State, a: Action)
    requires a.Api?
    ensures ApiStep(s, a.api).db.sweeps == s.db.sweeps + Scheduled(c, s, a)
  {
    ApiWaits(s, a);
    assert s.db.sweeps + [] == s.db.sweeps;
  }

  lemma WorkScheduled(c: Config, s: State, a: Action)
    requires RunWaits.Inv(s) && a.Work?
    ensures WorkStep(s, a.work).db.sweeps == s.db.sweeps + Scheduled(c, s, a)
  {
    WorkSchedules(s, a);
  }

  /** Which step schedules a sweep, and for when. */
  lemma ScheduledExactly(c: Config, acts: seq<Action>, a: Action)
    ensures Next(c, Exec(c, acts), a).db.sweeps == Exec(c, acts).db.sweeps + Scheduled(c, Exec(c, acts), a)
  {
    RunWaits.ExecInv(c, acts);
    StepSchedules(c, Exec(c, acts), a);
  }
}

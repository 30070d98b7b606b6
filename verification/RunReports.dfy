/**
  Terminal rows and the outcomes that report them.  Nothing but a cancellation
  past its worker rewrites a terminal run, so what a closing wait reports of its
  members is what their rows hold once its transaction has committed.
 */
module RunReports {
  import opened Options
  import opened RunTables
  import opened RunMachine
  import opened RunTally
  import opened RunWaits
  import opened RunStranding
  import RunOrphans
  import RunHistory

  // ---------------------------------------------------------------- terminal rows

  /** Every run terminal in a has the same row in b. */
  ghost predicate KeepsTerminal(a: Db, b: Db) {
    forall r {:trigger IsTerminal(a, r)} :: IsTerminal(a, r) ==> r in b.runs && b.runs[r] == a.runs[r]
  }

  lemma TryCloseKeeps(db: Db, w: WaitId, reason: CloseReason)
    ensures KeepsTerminal(db, TryClose(db, w, reason))
  {
  }

  lemma {:induction false} ResolveAllKeeps(db: Db, ws: seq<WaitId>)
    ensures KeepsTerminal(db, ResolveAll(db, ws))
    decreases |ws|
  {
    if ws != [] {
      var b := TryClose(db, ws[0], ByChild);
      TryCloseKeeps(db, ws[0], ByChild);
      ResolveAllKeeps(b, ws[1..]);
      forall r | IsTerminal(db, r) ensures r in ResolveAll(db, ws).runs && ResolveAll(db, ws).runs[r] == db.runs[r] {
        assert IsTerminal(b, r);
      }
    }
  }

  lemma SettleKeepsRow(a: Db, b: Db, q: RunId, order: seq<WaitId>, r: RunId)
    requires IsTerminal(a, r) && r in b.runs && b.runs[r] == a.runs[r]
    ensures r in Settle(b, q, order).runs && Settle(b, q, order).runs[r] == a.runs[r]
  {
    ResolveAllKeeps(Abandon(b, q), order);
    assert IsTerminal(Abandon(b, q), r);
  }

  lemma StopKeepsRow(db: Db, q: RunId, reason: string, text: string, order: seq<WaitId>, r: RunId)
    requires IsTerminal(db, r)
    ensures r in FailTx(db, q, reason, order).runs && FailTx(db, q, reason, order).runs[r] == db.runs[r]
    ensures q != r ==> r in CancelTx(db, q, order).runs && CancelTx(db, q, order).runs[r] == db.runs[r]
    ensures q != r && q in db.runs ==>
              r in FinishTx(db, q, text, order).runs && FinishTx(db, q, text, order).runs[r] == db.runs[r]
  {
    if q != r {
      SettleKeepsRow(db, Append(SetState(db, q, Cancelled, ""), RunCancelled(q, true)), q, order, r);
      SettleKeepsRow(db, Append(SetState(db, q, Failed, reason), RunFailed(q)), q, order, r);
      if q in db.runs {
        var done := PutRun(db, q, db.runs[q].(state := Completed, failure := "", result := text));
        SettleKeepsRow(db, Append(done, RunCompleted(q)), q, order, r);
      }
    }
  }

  lemma ClassifyKeepsRow(db: Db, q: RunId, step: nat, out: StepOutcome, now: Time, order: seq<WaitId>, r: RunId)
    requires IsTerminal(db, r) && q != r && q in db.runs && ClassifyTx(db, q, step, out, now, order).Committed?
    ensures var b := ClassifyTx(db, q, step, out, now, order).value; r in b.runs && b.runs[r] == db.runs[r]
  {
    match out
    case Park(call, members, timeout, policy) =>
      var w := WaitId(q, step, call);
      var created := CreateWaitRow(db, w, Wait(Open, members, now + timeout, policy, false, None)).value;
      assert created.runs == db.runs;
      TryCloseKeeps(created, w, ByChild);
      assert IsTerminal(created, r);
    case Finish(text) => StopKeepsRow(db, q, "", text, order, r);
    case _ =>
  }

  lemma CommitKeepsRow(db: Db, job: StepJob, history: seq<Entry>, body: seq<string>, out: StepOutcome,
                          now: Time, order: seq<WaitId>, r: RunId)
    requires IsTerminal(db, r) && CommitTx(db, job, history, body, out, now, order).Committed?
    ensures var b := CommitTx(db, job, history, body, out, now, order).value; r in b.runs && b.runs[r] == db.runs[r]
  {
    assert job.run != r;
    if db.runs[job.run].cancelRequested {
      StopKeepsRow(db, job.run, "", "", order, r);
    } else {
      var recorded := RecordStep(db, job, history, body);
      assert IsTerminal(recorded, r);
      ClassifyKeepsRow(recorded, job.run, job.step, out, now, order, r);
    }
  }

  /** The worker saw the cancel flag of this run and cancels it whatever its state is. */
  predicate CancelsPastState(s: State, a: Action, r: RunId) {
    && a.Work? && a.work.StreamCancel? && Executes(s, a.work.worker) && JobOf(s, a.work.worker).run == r
    && r in s.db.runs && s.db.runs[r].cancelRequested && Lists(s.db, r, a.work.order)
  }

  lemma WorkKeepsRow(s: State, a: WorkAction, r: RunId)
    requires IsTerminal(s.db, r) && !CancelsPastState(s, Work(a), r)
    ensures r in WorkStep(s, a).db.runs && WorkStep(s, a).db.runs[r] == s.db.runs[r]
  {
    if WorkStep(s, a).db != s.db {
      match a
      case Claim(k, job, order) => StopKeepsRow(s.db, s.db.jobs[job].run, "", "", order, r);
      case Commit(k, body, out, order) =>
        CommitKeepsRow(s.db, JobOf(s, k), s.workers[k].history, body, out, s.now, order, r);
      case Fail(k, reason, order) => StopKeepsRow(s.db, JobOf(s, k).run, reason, "", order, r);
      case StreamCancel(k, order) => StopKeepsRow(s.db, JobOf(s, k).run, "", "", order, r);
      case _ =>
    }
  }

  lemma SweepKeepsRow(c: Config, s: State, a: SweepAction, r: RunId)
    requires IsTerminal(s.db, r)
    ensures r in SweepStep(c, s, a).db.runs && SweepStep(c, s, a).db.runs[r] == s.db.runs[r]
  {
    if a.SweepResolve? && SweepStep(c, s, a) != s {
      TryCloseKeeps(s.db, s.sweepers[a.sweeper].todo[0], ByDeadline);
    }
  }

  lemma ApiKeepsFailed(s: State, a: ApiAction, r: RunId)
    requires r in s.db.runs && s.db.runs[r].state.Failed?
    ensures var runs := ApiStep(s, a).db.runs; r in runs && runs[r].state.Failed?
  {
  }

  lemma NextKeepsRow(c: Config, s: State, a: Action, r: RunId)
    requires r in s.db.runs && s.db.runs[r].state.Failed? && !CancelsPastState(s, a, r)
    ensures var runs := Next(c, s, a).db.runs; r in runs && runs[r].state.Failed?
  {
    match a
    case Api(x) => ApiKeepsFailed(s, x, r);
    case Work(x) => WorkKeepsRow(s, x, r);
    case Sweep(x) => SweepKeepsRow(c, s, x, r);
    case Tick(_) =>
  }

  lemma CancelLeavesFailed(c: Config, s: State, a: Action, r: RunId)
    requires r in s.db.runs && s.db.runs[r].state.Failed? && CancelsPastState(s, a, r)
    ensures var runs := Next(c, s, a).db.runs; r in runs && runs[r].state.Cancelled?
  {
    RunOrphans.TerminalTx(s.db, r, "", a.work.order);
  }

  /**
    Exactly when a failed run does not stay failed: a worker that saw its cancel
    flag while streaming cancels it without looking at its state again.
   */
  lemma FailedLeftExactlyWhen(c: Config, s: State, a: Action, r: RunId)
    requires r in s.db.runs && s.db.runs[r].state.Failed?
    ensures var runs := Next(c, s, a).db.runs;
            && r in runs && (!runs[r].state.Failed? <==> CancelsPastState(s, a, r))
            && (!runs[r].state.Failed? ==> runs[r].state.Cancelled?)
  {
    if CancelsPastState(s, a, r) {
      CancelLeavesFailed(c, s, a, r);
    } else {
      NextKeepsRow(c, s, a, r);
    }
  }

  // ---------------------------------------------------------------- reports

  /** What the outcome says of each reported member is what that member's row holds. */
  ghost predicate Reports(db: Db, o: Outcome) {
    forall j {:trigger o.members[j]} :: 0 <= j < |o.members| ==>
      var m := o.members[j];
      && IsTerminal(db, m.run)
      && m.state == db.runs[m.run].state && m.result == db.runs[m.run].result && m.failure == db.runs[m.run].failure
  }

  lemma ReportsStay(a: Db, b: Db, o: Outcome)
    requires Reports(a, o) && KeepsTerminal(a, b)
    ensures Reports(b, o)
  {
  }

  /** w's row got a result between a and b. */
  predicate Written(a: Db, b: Db, w: WaitId) {
    w in b.waits && b.waits[w].result.Some? && (w !in a.waits || b.waits[w].result != a.waits[w].result)
  }

  predicate Injected(a: Db, b: Db, i: int) {
    0 <= |a.log| <= i < |b.log| && b.log[i].ToolResulted?
  }

  /** Results written between a and b report the member rows of b; injected outcomes are the results of their rows. */
  ghost predicate Truthful(a: Db, b: Db) {
    && (forall w {:trigger Written(a, b, w)} :: Written(a, b, w) ==> Reports(b, b.waits[w].result.value))
    && (forall i {:trigger Injected(a, b, i)} :: Injected(a, b, i) ==>
          && b.log[i].wait in b.waits && b.waits[b.log[i].wait].result == Some(b.log[i].outcome)
          && Reports(b, b.log[i].outcome))
  }

  lemma SettlementReports(db: Db, wait: Wait, reason: CloseReason)
    ensures Reports(db, Settlement(db, wait, reason))
  {
    TallyReads(db, wait.members, |wait.members|);
  }

  lemma TryCloseTruthful(db: Db, w: WaitId, reason: CloseReason)
    ensures Truthful(db, TryClose(db, w, reason))
  {
    if Closable(db, w, reason) {
      TryCloseShape(db, w, reason);
      SettlementReports(db, db.waits[w], reason);
      TryCloseKeeps(db, w, reason);
      ReportsStay(db, TryClose(db, w, reason), Settlement(db, db.waits[w], reason));
    }
  }

  /** Between a and b no result is written and nothing injected. */
  ghost predicate Quiet(a: Db, b: Db) {
    && a.log <= b.log && (forall i {:trigger Injected(a, b, i)} :: !Injected(a, b, i))
    && (forall w :: w in a.waits ==> w in b.waits && b.waits[w].result == a.waits[w].result)
    && (forall w :: w in b.waits && w !in a.waits ==> b.waits[w].result.None?)
  }

  lemma TruthfulAfterQuiet(a: Db, b: Db, c: Db)
    requires Quiet(a, b) && Truthful(b, c) && b.log <= c.log
    ensures Truthful(a, c)
  {
    forall w | Written(a, c, w) ensures Written(b, c, w) {}
    forall i | Injected(a, c, i) ensures Injected(b, c, i) {
      assert i < |b.log| ==> (Injected(a, b, i) <==> Injected(a, c, i));
    }
  }

  lemma TruthfulThen(a: Db, b: Db, c: Db)
    requires Truthful(a, b) && Truthful(b, c) && KeepsTerminal(b, c) && a.log <= b.log && b.log <= c.log
    requires forall i {:trigger Injected(a, b, i)} :: Injected(a, b, i) ==>
               var w := b.log[i].wait; w in b.waits && w in c.waits && c.waits[w].result == b.waits[w].result
    ensures Truthful(a, c)
  {
    forall w | Written(a, c, w) ensures Reports(c, c.waits[w].result.value) {
      if !Written(b, c, w) {
        assert Written(a, b, w);
        ReportsStay(b, c, c.waits[w].result.value);
      }
    }
    forall i | Injected(a, c, i)
      ensures && c.log[i].wait in c.waits && c.waits[c.log[i].wait].result == Some(c.log[i].outcome)
              && Reports(c, c.log[i].outcome)
    {
      if i < |b.log| {
        assert b.log[i] == c.log[i] && Injected(a, b, i);
        ReportsStay(b, c, b.log[i].outcome);
      } else {
        assert Injected(b, c, i);
      }
    }
  }

  lemma {:induction false} ResolveAllTruthful(db: Db, ws: seq<WaitId>)
    requires Distinct(ws)
    ensures Truthful(db, ResolveAll(db, ws)) && db.log <= ResolveAll(db, ws).log
    decreases |ws|
  {
    if ws != [] {
      var b := TryClose(db, ws[0], ByChild);
      TryCloseTruthful(db, ws[0], ByChild);
      ResolveAllTruthful(b, ws[1..]);
      ResolveAllKeeps(b, ws[1..]);
      if Closable(db, ws[0], ByChild) { TryCloseShape(db, ws[0], ByChild); }
      ResolveAllLeaves(b, ws[1..], ws[0]);
      TruthfulThen(db, b, ResolveAll(b, ws[1..]));
    }
  }

  lemma SettleTruthful(a: Db, b: Db, r: RunId, order: seq<WaitId>)
    requires Quiet(a, b) && Distinct(order)
    ensures Truthful(a, Settle(b, r, order)) && a.log <= Settle(b, r, order).log
  {
    var d := Abandon(b, r);
    ResolveAllTruthful(d, order);
    ResolveAllKeeps(d, order);
    TruthfulThen(b, d, Settle(b, r, order));
    TruthfulAfterQuiet(a, b, Settle(b, r, order));
  }

  lemma StopTruthful(db: Db, r: RunId, reason: string, text: string, order: seq<WaitId>)
    requires Distinct(order)
    ensures Truthful(db, CancelTx(db, r, order)) && db.log <= CancelTx(db, r, order).log
    ensures Truthful(db, FailTx(db, r, reason, order)) && db.log <= FailTx(db, r, reason, order).log
    ensures r in db.runs ==> Truthful(db, FinishTx(db, r, text, order)) && db.log <= FinishTx(db, r, text, order).log
  {
    SettleTruthful(db, Append(SetState(db, r, Cancelled, ""), RunCancelled(r, true)), r, order);
    SettleTruthful(db, Append(SetState(db, r, Failed, reason), RunFailed(r)), r, order);
    if r in db.runs {
      var done := PutRun(db, r, db.runs[r].(state := Completed, failure := "", result := text));
      SettleTruthful(db, Append(done, RunCompleted(r)), r, order);
    }
  }

  lemma ParkTruthful(db: Db, r: RunId, step: nat, out: StepOutcome, now: Time)
    requires out.Park? && r in db.runs && db.runs[r].state.Running?
    requires WaitId(r, step, out.call) !in db.waits && ParkTx(db, r, step, out, now).Committed?
    ensures var b := ParkTx(db, r, step, out, now).value; Truthful(db, b) && db.log <= b.log
  {
    var w := WaitId(r, step, out.call);
    var created := PutWait(db, w, Wait(Open, out.members, now + out.timeout, out.policy, false, None));
    RunHistory.ParkTxCases(db, r, step, out, now);
    if Closable(created, w, ByChild) && Resumes(created, w) {
      TryCloseTruthful(created, w, ByChild);
      TryCloseShape(created, w, ByChild);
      TruthfulAfterQuiet(db, created, TryClose(created, w, ByChild));
    }
  }

  lemma ClassifyTruthful(db: Db, r: RunId, step: nat, out: StepOutcome, now: Time, order: seq<WaitId>)
    requires r in db.runs && db.runs[r].state.Running? && Distinct(order)
    requires out.Park? ==> WaitId(r, step, out.call) !in db.waits
    requires ClassifyTx(db, r, step, out, now, order).Committed?
    ensures var b := ClassifyTx(db, r, step, out, now, order).value; Truthful(db, b) && db.log <= b.log
  {
    match out
    case Park(_, _, _, _) => ParkTruthful(db, r, step, out, now);
    case Finish(text) => StopTruthful(db, r, "", text, order);
    case _ =>
  }

  lemma CommitTruthful(s: State, k: nat, body: seq<string>, out: StepOutcome, order: seq<WaitId>)
    requires RunWaits.Inv(s) && Executes(s, k) && Distinct(order)
    requires CommitTx(s.db, JobOf(s, k), s.workers[k].history, body, out, s.now, order).Committed?
    ensures Truthful(s.db, CommitTx(s.db, JobOf(s, k), s.workers[k].history, body, out, s.now, order).value)
  {
    var job := JobOf(s, k);
    assert RunOrphans.JobOk(s.db, s.db.jobs[s.workers[k].job]);
    if s.db.runs[job.run].cancelRequested {
      StopTruthful(s.db, job.run, "", "", order);
    } else {
      var recorded := RecordStep(s.db, job, s.workers[k].history, body);
      FreshWait(s.db, job, if out.Park? then out.call else "");
      ClassifyTruthful(recorded, job.run, job.step, out, s.now, order);
      TruthfulAfterQuiet(s.db, recorded, ClassifyTx(recorded, job.run, job.step, out, s.now, order).value);
    }
  }

  lemma WorkTruthful(s: State, a: WorkAction)
    requires RunWaits.Inv(s)
    ensures Truthful(s.db, WorkStep(s, a).db)
  {
    if WorkStep(s, a).db != s.db {
      match a
      case Claim(k, job, order) => StopTruthful(s.db, s.db.jobs[job].run, "", "", order);
      case Commit(k, body, out, order) => CommitTruthful(s, k, body, out, order);
      case Fail(k, reason, order) => StopTruthful(s.db, JobOf(s, k).run, reason, "", order);
      case StreamCancel(k, order) => StopTruthful(s.db, JobOf(s, k).run, "", "", order);
      case _ =>
    }
  }

  lemma ApiTruthful(s: State, a: ApiAction)
    ensures Truthful(s.db, ApiStep(s, a).db)
  {
  }

  lemma SweepTruthful(c: Config, s: State, a: SweepAction)
    ensures Truthful(s.db, SweepStep(c, s, a).db)
  {
    if a.SweepResolve? && SweepStep(c, s, a) != s {
      TryCloseTruthful(s.db, s.sweepers[a.sweeper].todo[0], ByDeadline);
    }
  }

  lemma NextTruthful(c: Config, s: State, a: Action)
    requires RunWaits.Inv(s)
    ensures Truthful(s.db, Next(c, s, a).db)
  {
    match a
    case Api(x) => ApiTruthful(s, x);
    case Work(x) => WorkTruthful(s, x);
    case Sweep(x) => SweepTruthful(c, s, x);
    case Tick(_) =>
  }

  lemma ReportedInPlace(db: Db, w: WaitId, j: nat)
    requires Good(db, []) && w in db.waits && db.waits[w].result.Some? && j < |db.waits[w].result.value.members|
    ensures var m := db.waits[w].result.value.members[j];
            m.ordinal < |db.waits[w].members| && m.run == db.waits[w].members[m.ordinal]
  {
    assert RowOk(db, w, db.waits[w]);
  }

  /**
    A step that writes a wait's result reports its members as their rows are
    when the step has committed: state, result and failure of each, at its place.
   */
  lemma ResultIsTheMembers(c: Config, acts: seq<Action>, a: Action, w: WaitId, j: nat)
    requires var s := Exec(c, acts);
             Written(s.db, Next(c, s, a).db, w) && j < |Next(c, s, a).db.waits[w].result.value.members|
    ensures var db := Next(c, Exec(c, acts), a).db;
            var m := db.waits[w].result.value.members[j];
            && m.ordinal < |db.waits[w].members| && m.run == db.waits[w].members[m.ordinal]
            && IsTerminal(db, m.run)
            && m.state == db.runs[m.run].state
            && m.result == db.runs[m.run].result && m.failure == db.runs[m.run].failure
  {
    RunWaits.ExecInv(c, acts);
    NextTruthful(c, Exec(c, acts), a);
    NextGood(c, Exec(c, acts), a);
    ReportedInPlace(Next(c, Exec(c, acts), a).db, w, j);
  }

  /** And the outcome a step injects is the result on the wait's row, so the same holds of it. */
  lemma InjectedIsTheResult(c: Config, acts: seq<Action>, a: Action, i: nat)
    requires var s := Exec(c, acts); Injected(s.db, Next(c, s, a).db, i)
    ensures var db := Next(c, Exec(c, acts), a).db;
            && db.log[i].wait in db.waits && db.waits[db.log[i].wait].result == Some(db.log[i].outcome)
            && Reports(db, db.log[i].outcome)
  {
    RunWaits.ExecInv(c, acts);
    NextTruthful(c, Exec(c, acts), a);
  }
}

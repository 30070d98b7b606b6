/**
  No orphaned run: whatever crashes, is redelivered or is delivered twice, a
  run that waits for the queue has a live job for exactly its next step, and a
  run that waits for anything else has no job that could move it.
 */
module RunOrphans {
  import opened Options
  import opened RunTables
  import opened RunMachine
  import opened RunEvolution

  predicate Numbered(steps: seq<nat>) {
    forall i :: 0 <= i < |steps| ==> steps[i] == i
  }

  lemma {:induction false} NextStepNumbered(steps: seq<nat>)
    requires Numbered(steps)
    ensures NextStep(steps) == |steps|
    ensures forall i :: i in steps <==> 0 <= i < |steps|
  {
    if steps != [] {
      NextStepNumbered(steps[..|steps| - 1]);
    }
    forall i | 0 <= i < |steps| ensures i in steps {
      assert steps[i] == i;
    }
  }

  predicate Drives(db: Db, j: nat, r: RunId) {
    && r in db.runs && j in db.live && j < |db.jobs|
    && db.jobs[j].run == r && db.jobs[j].step == |db.runs[r].steps|
  }

  predicate JobOk(db: Db, job: StepJob) {
    && job.run in db.runs
    && job.step <= |db.runs[job.run].steps|
    && (db.runs[job.run].state.Awaiting? || db.runs[job.run].state.Completed? ==>
          job.step < |db.runs[job.run].steps|)
  }

  ghost predicate RunOk(db: Db, r: RunId) {
    && r in db.runs
    && Numbered(db.runs[r].steps)
    && (db.runs[r].state.Active() ==> exists j :: Drives(db, j, r))
  }

  ghost predicate RunsOk(db: Db) {
    && (forall r {:trigger RunOk(db, r)} :: r in db.runs ==> RunOk(db, r))
    && (forall j {:trigger JobOk(db, db.jobs[j])} :: 0 <= j < |db.jobs| ==> JobOk(db, db.jobs[j]))
    && (forall j :: j in db.live ==> j < |db.jobs|)
  }

  /** A job whose delivery may be acknowledged without anything being lost. */
  predicate Disposable(db: Db, j: nat) {
    && j < |db.jobs| && db.jobs[j].run in db.runs
    && (|| db.jobs[j].step < |db.runs[db.jobs[j].run].steps|
        || db.runs[db.jobs[j].run].state.Failed?
        || db.runs[db.jobs[j].run].state.Cancelled?)
  }

  predicate WorkerOk(db: Db, w: Worker) {
    && w.job < |db.jobs| && db.jobs[w.job].run in db.runs
    && (w.Executing? ==> !db.runs[db.jobs[w.job].run].state.Pending?)
    && (w.Acking? ==> Disposable(db, w.job))
  }

  ghost predicate Inv(s: State) {
    && RunsOk(s.db)
    && WorkersOk(s)
  }

  // ---------------------------------------------------------------- one run changes at a time

  /** b differs from a, as far as runs and jobs go, only in run r. */
  ghost predicate OneRun(a: Db, b: Db, r: RunId) {
    && a.runs.Keys + {r} == b.runs.Keys
    && (forall q :: q in a.runs && q != r ==>
          b.runs[q].state == a.runs[q].state && b.runs[q].steps == a.runs[q].steps)
    && a.jobs <= b.jobs
    && (forall j :: j in b.live <==> j in a.live || |a.jobs| <= j < |b.jobs|)
  }

  lemma OneRunOk(a: Db, b: Db, r: RunId)
    requires RunsOk(a) && OneRun(a, b, r) && RunOk(b, r)
    requires forall j :: 0 <= j < |b.jobs| && b.jobs[j].run == r ==> JobOk(b, b.jobs[j])
    requires forall j :: |a.jobs| <= j < |b.jobs| ==> b.jobs[j].run == r
    ensures RunsOk(b)
  {
    forall q | q in b.runs && q != r ensures RunOk(b, q) {
      assert RunOk(a, q);
      if a.runs[q].state.Active() {
        var j :| Drives(a, j, q);
        assert Drives(b, j, q);
      }
    }
    forall j | 0 <= j < |b.jobs| ensures JobOk(b, b.jobs[j]) {
      if j < |a.jobs| { assert JobOk(a, a.jobs[j]); }
    }
  }

  /** RunsOk looks at nothing but the runs' states and steps and at the step jobs. */
  lemma SameRunsOk(a: Db, b: Db)
    requires RunsOk(a)
    requires b.jobs == a.jobs && b.live == a.live && b.runs == a.runs
    ensures RunsOk(b)
  {
    forall r | r in b.runs ensures RunOk(b, r) {
      assert RunOk(a, r);
      if a.runs[r].state.Active() {
        var j :| Drives(a, j, r);
        assert Drives(b, j, r);
      }
    }
    forall j | 0 <= j < |b.jobs| ensures JobOk(b, b.jobs[j]) { assert JobOk(a, a.jobs[j]); }
  }

  /** Moving a run to a state no queue job drives keeps the invariant. */
  lemma StopOk(a: Db, b: Db, r: RunId)
    requires RunsOk(a) && r in a.runs && OneRun(a, b, r) && b.jobs == a.jobs
    requires b.runs[r].steps == a.runs[r].steps
    requires b.runs[r].state.Failed? || b.runs[r].state.Cancelled?
    ensures RunsOk(b)
  {
    assert RunOk(a, r);
    forall j | 0 <= j < |b.jobs| && b.jobs[j].run == r ensures JobOk(b, b.jobs[j]) { assert JobOk(a, a.jobs[j]); }
    OneRunOk(a, b, r);
  }

  /** Setting a run running together with a job for its next step keeps the invariant. */
  lemma WakeOk(a: Db, b: Db, r: RunId, cause: Cause)
    requires RunsOk(a) && r in a.runs && OneRun(a, b, r)
    requires b.runs[r].steps == a.runs[r].steps && b.runs[r].state.Running?
    requires b.jobs == a.jobs + [StepJob(r, NextStep(a.runs[r].steps), cause)]
    ensures RunsOk(b)
  {
    assert RunOk(a, r);
    NextStepNumbered(a.runs[r].steps);
    assert Drives(b, |a.jobs|, r);
    forall j | 0 <= j < |b.jobs| && b.jobs[j].run == r ensures JobOk(b, b.jobs[j]) {
      if j < |a.jobs| { assert JobOk(a, a.jobs[j]); }
    }
    OneRunOk(a, b, r);
  }

  lemma CreateRunOk(a: Db, b: Db, r: RunId, prompt: string)
    requires RunsOk(a) && r !in a.runs && OneRun(a, b, r)
    requires b.runs[r] == NewRun(prompt) && b.jobs == a.jobs + [StepJob(r, 0, ByStart)]
    ensures RunsOk(b)
  {
    assert Drives(b, |a.jobs|, r);
    forall j | 0 <= j < |a.jobs| ensures b.jobs[j].run != r { assert JobOk(a, a.jobs[j]); }
    OneRunOk(a, b, r);
  }

  /**
    Committing the next step keeps the invariant when it either leaves the run
    to something other than the queue, or enqueues the step after it.
   */
  lemma AdvanceOk(a: Db, b: Db, r: RunId, cause: Cause)
    requires RunsOk(a) && r in a.runs && OneRun(a, b, r)
    requires b.runs[r].steps == a.runs[r].steps + [|a.runs[r].steps|]
    requires || ((b.runs[r].state.Awaiting? || b.runs[r].state.Completed?) && b.jobs == a.jobs)
             || (b.runs[r].state.Running? && b.jobs == a.jobs + [StepJob(r, |b.runs[r].steps|, cause)])
    ensures RunsOk(b)
  {
    assert RunOk(a, r);
    if b.runs[r].state.Running? { assert Drives(b, |a.jobs|, r); }
    forall j | 0 <= j < |b.jobs| && b.jobs[j].run == r ensures JobOk(b, b.jobs[j]) {
      if j < |a.jobs| { assert JobOk(a, a.jobs[j]); }
    }
    OneRunOk(a, b, r);
  }

  // ---------------------------------------------------------------- transactions

  lemma TryCloseOk(db: Db, w: WaitId, reason: CloseReason)
    requires RunsOk(db)
    ensures RunsOk(TryClose(db, w, reason))
  {
    var after := TryClose(db, w, reason);
    if Closable(db, w, reason) && Resumes(db, w) {
      WakeOk(db, after, w.parent, ByWait(w));
    } else {
      SameRunsOk(db, after);
    }
  }

  lemma {:induction false} ResolveAllOk(db: Db, ws: seq<WaitId>)
    requires RunsOk(db)
    ensures RunsOk(ResolveAll(db, ws))
    decreases |ws|
  {
    if ws != [] {
      TryCloseOk(db, ws[0], ByChild);
      ResolveAllOk(TryClose(db, ws[0], ByChild), ws[1..]);
    }
  }

  lemma SettleOk(db: Db, r: RunId, order: seq<WaitId>)
    requires RunsOk(db)
    ensures RunsOk(Settle(db, r, order))
  {
    SameRunsOk(db, Abandon(db, r));
    ResolveAllOk(Abandon(db, r), order);
  }

  lemma CancelTxOk(db: Db, r: RunId, order: seq<WaitId>)
    requires RunsOk(db) && r in db.runs
    ensures RunsOk(CancelTx(db, r, order))
  {
    var db1 := Append(SetState(db, r, Cancelled, ""), RunCancelled(r, true));
    StopOk(db, db1, r);
    SettleOk(db1, r, order);
  }

  lemma FailTxOk(db: Db, r: RunId, reason: string, order: seq<WaitId>)
    requires RunsOk(db)
    ensures RunsOk(FailTx(db, r, reason, order))
  {
    if r in db.runs && !db.runs[r].state.Terminal() {
      var db1 := Append(SetState(db, r, Failed, reason), RunFailed(r));
      StopOk(db, db1, r);
      SettleOk(db1, r, order);
    }
  }

  lemma ClaimTxOk(db: Db, job: StepJob, order: seq<WaitId>)
    requires RunsOk(db)
    ensures RunsOk(ClaimTx(db, job, order).db)
  {
    if job.run in db.runs && db.runs[job.run].state.Active() {
      var r := job.run;
      if db.runs[r].cancelRequested {
        CancelTxOk(db, r, order);
      } else {
        var db1 := SetState(db, r, Running, "");
        assert RunOk(db, r);
        var j :| Drives(db, j, r);
        assert Drives(db1, j, r);
        forall i | 0 <= i < |db1.jobs| && db1.jobs[i].run == r ensures JobOk(db1, db1.jobs[i]) {
          assert JobOk(db, db.jobs[i]);
        }
        OneRunOk(db, db1, r);
      }
    }
  }

  /** An attempt to close either resumes the wait's parent or leaves runs and jobs alone. */
  lemma TryCloseRuns(db: Db, w: WaitId, reason: CloseReason)
    ensures var b := TryClose(db, w, reason);
            if Closable(db, w, reason) && Resumes(db, w)
            then && OneRun(db, b, w.parent)
                 && b.runs[w.parent].state.Running? && b.runs[w.parent].steps == db.runs[w.parent].steps
                 && b.jobs == db.jobs + [StepJob(w.parent, NextStep(db.runs[w.parent].steps), ByWait(w))]
            else b.runs == db.runs && b.jobs == db.jobs && b.live == db.live
  {
  }

  /** What parking does to the parent: it is either resumed on the spot or set awaiting. */
  lemma ParkTxShape(db: Db, r: RunId, step: nat, out: StepOutcome, now: Time)
    requires out.Park? && r in db.runs && db.runs[r].state.Running?
    requires ParkTx(db, r, step, out, now).Committed?
    ensures var b := ParkTx(db, r, step, out, now).value;
            && OneRun(db, b, r) && b.runs[r].steps == db.runs[r].steps
            && (|| (b.runs[r].state.Awaiting? && b.jobs == db.jobs)
                || (b.runs[r].state.Running?
                    && b.jobs == db.jobs + [StepJob(r, NextStep(db.runs[r].steps), ByWait(WaitId(r, step, out.call)))]))
  {
    var w := WaitId(r, step, out.call);
    var wait := Wait(Open, out.members, now + out.timeout, out.policy, false, None);
    var created := CreateWaitRow(db, w, wait).value;
    assert created.runs == db.runs && created.jobs == db.jobs && created.live == db.live;
    TryCloseRuns(created, w, ByChild);
  }

  /** b is a with the step after the last committed for r recorded, and nothing else that matters here. */
  ghost predicate Recorded(a: Db, b: Db, r: RunId) {
    && r in a.runs && OneRun(a, b, r) && b.jobs == a.jobs
    && b.runs[r].state.Running? && b.runs[r].steps == a.runs[r].steps + [|a.runs[r].steps|]
  }

  lemma NumberedHas(steps: seq<nat>, i: nat)
    requires Numbered(steps)
    ensures i in steps <==> i < |steps|
  {
    if i < |steps| { assert steps[i] == i; }
  }

  lemma RecordStepRecords(db: Db, job: StepJob, history: seq<Entry>, body: seq<string>)
    requires RunsOk(db) && JobOk(db, job) && job.run in db.runs && db.runs[job.run].state.Running?
    requires job.step !in db.runs[job.run].steps
    ensures Recorded(db, RecordStep(db, job, history, body), job.run)
    ensures NextStep(RecordStep(db, job, history, body).runs[job.run].steps) == |db.runs[job.run].steps| + 1
    ensures job.step == |db.runs[job.run].steps|
  {
    var recorded := RecordStep(db, job, history, body);
    assert RunOk(db, job.run);
    NumberedHas(db.runs[job.run].steps, job.step);
    assert Numbered(recorded.runs[job.run].steps);
    NextStepNumbered(recorded.runs[job.run].steps);
  }

  lemma CommitParkOk(db: Db, recorded: Db, r: RunId, step: nat, out: StepOutcome, now: Time)
    requires RunsOk(db) && Recorded(db, recorded, r) && NextStep(recorded.runs[r].steps) == |recorded.runs[r].steps|
    requires out.Park? && ParkTx(recorded, r, step, out, now).Committed?
    ensures RunsOk(ParkTx(recorded, r, step, out, now).value)
  {
    ParkTxShape(recorded, r, step, out, now);
    AdvanceOk(db, ParkTx(recorded, r, step, out, now).value, r, ByWait(WaitId(r, step, out.call)));
  }

  lemma CommitFinishOk(db: Db, recorded: Db, r: RunId, text: string, order: seq<WaitId>)
    requires RunsOk(db) && Recorded(db, recorded, r)
    ensures RunsOk(FinishTx(recorded, r, text, order))
  {
    var run := recorded.runs[r].(state := Completed, failure := "", result := text);
    var done := Append(PutRun(recorded, r, run), RunCompleted(r));
    AdvanceOk(db, done, r, ByStep);
    SettleOk(done, r, order);
  }

  lemma CommitTxOk(db: Db, job: StepJob, history: seq<Entry>, body: seq<string>, out: StepOutcome,
                   now: Time, order: seq<WaitId>)
    requires RunsOk(db) && JobOk(db, job)
    requires CommitTx(db, job, history, body, out, now, order).Committed?
    ensures RunsOk(CommitTx(db, job, history, body, out, now, order).value)
  {
    var r := job.run;
    if db.runs[r].cancelRequested {
      CancelTxOk(db, r, order);
    } else {
      var recorded := RecordStep(db, job, history, body);
      RecordStepRecords(db, job, history, body);
      match out
      case Park(_, _, _, _) => CommitParkOk(db, recorded, r, job.step, out, now);
      case Finish(text) => CommitFinishOk(db, recorded, r, text, order);
      case _ => AdvanceOk(db, CommitTx(db, job, history, body, out, now, order).value, r, ByStep);
    }
  }

  lemma HandlerOk(db: Db, r: RunId, text: string)
    requires RunsOk(db)
    ensures StartTx(db, r, text).Committed? ==> RunsOk(StartTx(db, r, text).value)
    ensures AnswerTx(db, r, text).Committed? ==> RunsOk(AnswerTx(db, r, text).value)
  {
    if StartTx(db, r, text).Committed? { CreateRunOk(db, StartTx(db, r, text).value, r, text); }
    if AnswerTx(db, r, text).Committed? { WakeOk(db, AnswerTx(db, r, text).value, r, ByAnswer); }
  }

  lemma CancelHandlerOk(db: Db, r: RunId)
    requires RunsOk(db)
    ensures CancelRequestTx(db, r).Committed? ==> RunsOk(CancelRequestTx(db, r).value)
    ensures ExpireTx(db, r).Committed? ==> RunsOk(ExpireTx(db, r).value)
  {
    if ExpireTx(db, r).Committed? { StopOk(db, ExpireTx(db, r).value, r); }
    if CancelRequestTx(db, r).Committed? {
      var b := CancelRequestTx(db, r).value;
      if db.runs[r].state.Awaiting? {
        StopOk(db, b, r);
      } else {
        assert RunOk(db, r);
        var j :| Drives(db, j, r);
        assert Drives(b, j, r);
        forall i | 0 <= i < |b.jobs| && b.jobs[i].run == r ensures JobOk(b, b.jobs[i]) { assert JobOk(db, db.jobs[i]); }
        OneRunOk(db, b, r);
      }
    }
  }

  lemma SpawnTxOk(db: Db, parent: RunId, child: RunId, prompt: string)
    requires RunsOk(db)
    ensures SpawnTx(db, parent, child, prompt).Committed? ==> RunsOk(SpawnTx(db, parent, child, prompt).value)
  {
    if SpawnTx(db, parent, child, prompt).Committed? {
      CreateRunOk(db, SpawnTx(db, parent, child, prompt).value, child, prompt);
    }
  }

  // ---------------------------------------------------------------- the machine

  /** Removing a disposable job from the queue leaves every run driven. */
  lemma AckOk(db: Db, j: nat)
    requires RunsOk(db) && Disposable(db, j)
    ensures RunsOk(db.(live := db.live - {j}))
  {
    var b := db.(live := db.live - {j});
    forall r | r in b.runs ensures RunOk(b, r) {
      assert RunOk(db, r);
      if db.runs[r].state.Active() {
        var i :| Drives(db, i, r);
        assert Drives(b, i, r);
      }
    }
    forall i | 0 <= i < |b.jobs| ensures JobOk(b, b.jobs[i]) { assert JobOk(db, db.jobs[i]); }
  }

  lemma WorkerStaysOk(a: Db, b: Db, w: Worker)
    requires Evolves(a, b) && WorkerOk(a, w)
    ensures WorkerOk(b, w)
  {
  }

  /** A cancelling transaction leaves the run cancelled, a failing one leaves it terminal. */
  lemma TerminalTx(db: Db, r: RunId, reason: string, order: seq<WaitId>)
    requires r in db.runs
    ensures r in CancelTx(db, r, order).runs && CancelTx(db, r, order).runs[r].state.Cancelled?
    ensures !db.runs[r].state.Terminal() ==>
              r in FailTx(db, r, reason, order).runs
              && (FailTx(db, r, reason, order).runs[r].state.Failed?
                  || FailTx(db, r, reason, order).runs[r].state.Cancelled?)
  {
    var cancelled := Append(SetState(db, r, Cancelled, ""), RunCancelled(r, true));
    SettleEvolves(cancelled, r, order);
    assert RunEvolves(cancelled.runs[r], CancelTx(db, r, order).runs[r]);
    if !db.runs[r].state.Terminal() {
      var failed := Append(SetState(db, r, Failed, reason), RunFailed(r));
      SettleEvolves(failed, r, order);
      assert RunEvolves(failed.runs[r], FailTx(db, r, reason, order).runs[r]);
    }
  }

  /** A committed step row is in the table afterwards. */
  lemma CommitTxRecords(db: Db, job: StepJob, history: seq<Entry>, body: seq<string>, out: StepOutcome,
                        now: Time, order: seq<WaitId>)
    requires CommitTx(db, job, history, body, out, now, order).Committed? && !db.runs[job.run].cancelRequested
    ensures var b := CommitTx(db, job, history, body, out, now, order).value;
            job.run in b.runs && |b.runs[job.run].steps| > |db.runs[job.run].steps|
  {
    var recorded := RecordStep(db, job, history, body);
    var b := CommitTx(db, job, history, body, out, now, order).value;
    match out
    case Park(_, _, _, _) =>
      ParkTxEvolves(recorded, job.run, job.step, out, now);
      assert RunEvolves(recorded.runs[job.run], b.runs[job.run]);
    case Ask =>
    case Continue =>
    case Finish(text) =>
      var run := recorded.runs[job.run].(state := Completed, failure := "", result := text);
      var done := Append(PutRun(recorded, job.run, run), RunCompleted(job.run));
      SettleEvolves(done, job.run, order);
      assert RunEvolves(done.runs[job.run], b.runs[job.run]);
  }

  lemma ClaimDisposes(db: Db, j: nat, order: seq<WaitId>)
    requires RunsOk(db) && j < |db.jobs|
    ensures ClaimTx(db, db.jobs[j], order).Acknowledged? ==> Disposable(ClaimTx(db, db.jobs[j], order).db, j)
    ensures ClaimTx(db, db.jobs[j], order).Claimed? ==> WorkerOk(ClaimTx(db, db.jobs[j], order).db, Executing(j, []))
  {
    assert JobOk(db, db.jobs[j]);
    var r := db.jobs[j].run;
    assert RunOk(db, r);
    NextStepNumbered(db.runs[r].steps);
    ClaimTxEvolves(db, db.jobs[j], order);
    TerminalTx(db, r, "", order);
  }

  lemma CommitDisposes(s: State, k: nat, body: seq<string>, out: StepOutcome, order: seq<WaitId>)
    requires Inv(s) && Executes(s, k)
    ensures match CommitTx(s.db, JobOf(s, k), s.workers[k].history, body, out, s.now, order)
            case Committed(db) => Disposable(db, s.workers[k].job)
            case Stale => Disposable(s.db, s.workers[k].job)
            case Aborted => true
  {
    var job := JobOf(s, k);
    assert WorkerOk(s.db, s.workers[k]) && JobOk(s.db, job) && RunOk(s.db, job.run);
    NextStepNumbered(s.db.runs[job.run].steps);
    match CommitTx(s.db, job, s.workers[k].history, body, out, s.now, order)
    case Committed(db) =>
      CommitTxEvolves(s.db, job, s.workers[k].history, body, out, s.now, order);
      if s.db.runs[job.run].cancelRequested {
        TerminalTx(s.db, job.run, "", order);
      } else {
        CommitTxRecords(s.db, job, s.workers[k].history, body, out, s.now, order);
      }
    case Stale =>
    case Aborted =>
  }

  lemma FailDisposes(s: State, k: nat, reason: string, order: seq<WaitId>)
    requires Inv(s) && Executes(s, k)
    ensures Disposable(FailTx(s.db, JobOf(s, k).run, reason, order), s.workers[k].job)
    ensures Disposable(CancelTx(s.db, JobOf(s, k).run, order), s.workers[k].job)
  {
    var r := JobOf(s, k).run;
    assert WorkerOk(s.db, s.workers[k]) && JobOk(s.db, JobOf(s, k)) && RunOk(s.db, r);
    FailTxEvolves(s.db, r, reason, order);
    CancelTxEvolves(s.db, r, order);
    TerminalTx(s.db, r, reason, order);
  }

  lemma ApiRunsOk(s: State, a: ApiAction)
    requires RunsOk(s.db)
    ensures RunsOk(ApiStep(s, a).db)
  {
    match a
    case Start(r, text) => HandlerOk(s.db, r, text);
    case AnswerRun(r, text) => HandlerOk(s.db, r, text);
    case CancelRun(r) => CancelHandlerOk(s.db, r);
    case ExpireRun(r) => CancelHandlerOk(s.db, r);
  }

  lemma WorkRunsOk(s: State, a: WorkAction)
    requires Inv(s)
    ensures RunsOk(WorkStep(s, a).db)
  {
    match a
    case Claim(k, job, order) => if job < |s.db.jobs| { ClaimTxOk(s.db, s.db.jobs[job], order); }
    case Spawn(k, child, prompt) => if Executes(s, k) { SpawnTxOk(s.db, JobOf(s, k).run, child, prompt); }
    case Commit(k, body, out, order) =>
      if Executes(s, k) {
        assert JobOk(s.db, s.db.jobs[s.workers[k].job]);
        if CommitTx(s.db, JobOf(s, k), s.workers[k].history, body, out, s.now, order).Committed? {
          CommitTxOk(s.db, JobOf(s, k), s.workers[k].history, body, out, s.now, order);
        }
      }
    case Fail(k, reason, order) => if Executes(s, k) { FailTxOk(s.db, JobOf(s, k).run, reason, order); }
    case StreamCancel(k, order) =>
      if Executes(s, k) && JobOf(s, k).run in s.db.runs { CancelTxOk(s.db, JobOf(s, k).run, order); }
    case Ack(k) =>
      if k in s.workers && s.workers[k].Acking? {
        assert WorkerOk(s.db, s.workers[k]);
        AckOk(s.db, s.workers[k].job);
      }
    case Crash(k) =>
  }

  lemma SweepRunsOk(c: Config, s: State, a: SweepAction)
    requires RunsOk(s.db)
    ensures RunsOk(SweepStep(c, s, a).db)
  {
    if a.SweepResolve? {
      if a.sweeper in s.sweepers && s.sweepers[a.sweeper].Resolving? && s.sweepers[a.sweeper].todo != [] {
        TryCloseOk(s.db, s.sweepers[a.sweeper].todo[0], ByDeadline);
      }
    } else {
      SameRunsOk(s.db, SweepStep(c, s, a).db);
    }
  }

  ghost predicate WorkersOk(s: State) {
    forall k {:trigger WorkerOk(s.db, s.workers[k])} :: k in s.workers ==> WorkerOk(s.db, s.workers[k])
  }

  /** The worker that moved is accounted for; every other one holds what it held. */
  lemma MovedWorkersOk(s: State, t: State, k: nat)
    requires WorkersOk(s) && Evolves(s.db, t.db)
    requires t.workers.Keys <= s.workers.Keys + {k}
    requires forall i :: i in t.workers && i != k ==> t.workers[i] == s.workers[i]
    requires k in t.workers ==> WorkerOk(t.db, t.workers[k])
    ensures WorkersOk(t)
  {
    forall i | i in t.workers ensures WorkerOk(t.db, t.workers[i]) {
      if i != k {
        assert WorkerOk(s.db, s.workers[i]);
        WorkerStaysOk(s.db, t.db, s.workers[i]);
      }
    }
  }

  lemma KeptWorkersOk(s: State, t: State)
    requires WorkersOk(s) && Evolves(s.db, t.db)
    requires forall k :: k in t.workers ==> k in s.workers && t.workers[k] == s.workers[k]
    ensures WorkersOk(t)
  {
    forall k | k in t.workers ensures WorkerOk(t.db, t.workers[k]) {
      assert WorkerOk(s.db, s.workers[k]);
      WorkerStaysOk(s.db, t.db, s.workers[k]);
    }
  }

  lemma ToAckingWorkersOk(s: State, k: nat, db: Db)
    requires WorkersOk(s) && k in s.workers && Evolves(s.db, db) && Disposable(db, s.workers[k].job)
    ensures WorkersOk(ToAcking(s, k, db))
  {
    MovedWorkersOk(s, ToAcking(s, k, db), k);
  }

  lemma ClaimStepWorkersOk(s: State, k: nat, job: nat, order: seq<WaitId>)
    requires Inv(s)
    ensures WorkersOk(ClaimStep(s, k, job, order))
  {
    if job < |s.db.jobs| {
      ClaimTxEvolves(s.db, s.db.jobs[job], order);
      ClaimDisposes(s.db, job, order);
      MovedWorkersOk(s, ClaimStep(s, k, job, order), k);
    }
  }

  lemma CommitStepWorkersOk(s: State, k: nat, body: seq<string>, out: StepOutcome, order: seq<WaitId>)
    requires Inv(s)
    ensures WorkersOk(CommitStep(s, k, body, out, order))
  {
    if Executes(s, k) {
      CommitDisposes(s, k, body, out, order);
      match CommitTx(s.db, JobOf(s, k), s.workers[k].history, body, out, s.now, order)
      case Committed(db) =>
        CommitTxEvolves(s.db, JobOf(s, k), s.workers[k].history, body, out, s.now, order);
        ToAckingWorkersOk(s, k, db);
      case Stale => ToAckingWorkersOk(s, k, s.db);
      case Aborted => MovedWorkersOk(s, s.(workers := s.workers - {k}), k);
    }
  }

  lemma StopStepWorkersOk(s: State, k: nat, reason: string, order: seq<WaitId>)
    requires Inv(s)
    ensures WorkersOk(FailStep(s, k, reason, order)) && WorkersOk(StreamCancelStep(s, k, order))
  {
    if Executes(s, k) {
      FailTxEvolves(s.db, JobOf(s, k).run, reason, order);
      CancelTxEvolves(s.db, JobOf(s, k).run, order);
      FailDisposes(s, k, reason, order);
      ToAckingWorkersOk(s, k, FailTx(s.db, JobOf(s, k).run, reason, order));
      ToAckingWorkersOk(s, k, CancelTx(s.db, JobOf(s, k).run, order));
    }
  }

  lemma WorkWorkersOk(s: State, a: WorkAction)
    requires Inv(s)
    ensures WorkersOk(WorkStep(s, a))
  {
    match a
    case Claim(k, job, order) => ClaimStepWorkersOk(s, k, job, order);
    case Commit(k, body, out, order) => CommitStepWorkersOk(s, k, body, out, order);
    case Fail(k, reason, order) => StopStepWorkersOk(s, k, reason, order);
    case StreamCancel(k, order) => StopStepWorkersOk(s, k, "", order);
    case _ =>
      WorkEvolves(s, a);
      KeptWorkersOk(s, WorkStep(s, a));
  }

  lemma NextInv(c: Config, s: State, a: Action)
    requires Inv(s)
    ensures Inv(Next(c, s, a))
  {
    match a
    case Api(x) => ApiRunsOk(s, x); ApiEvolves(s, x); KeptWorkersOk(s, ApiStep(s, x));
    case Work(x) => WorkRunsOk(s, x); WorkWorkersOk(s, x);
    case Sweep(x) => SweepRunsOk(c, s, x); SweepEvolves(c, s, x); KeptWorkersOk(s, SweepStep(c, s, x));
    case Tick(d) =>
  }

  lemma {:induction false} ExecInv(c: Config, acts: seq<Action>)
    ensures Inv(Exec(c, acts))
    decreases |acts|
  {
    if acts != [] {
      ExecInv(c, acts[..|acts| - 1]);
      NextInv(c, Exec(c, acts[..|acts| - 1]), acts[|acts| - 1]);
    }
  }
}

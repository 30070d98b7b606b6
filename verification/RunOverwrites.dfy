/**
  Exactly when a run's history loses something: over every step of the machine,
  the one write that does not extend a history is a commit whose worker's copy
  has been overtaken.
 */
module RunOverwrites {
  import opened Options
  import opened RunTables
  import opened RunMachine
  import RunOrphans
  import RunWaits
  import RunHistory

  predicate Extends(a: Db, b: Db, r: RunId) {
    r in a.runs ==> r in b.runs && a.runs[r].history <= b.runs[r].history
  }

  lemma ExtendsTransitive(a: Db, b: Db, d: Db, r: RunId)
    requires Extends(a, b, r) && Extends(b, d, r)
    ensures Extends(a, d, r)
  {
  }

  // ---------------------------------------------------------------- transactions that extend

  lemma TryCloseExtends(db: Db, w: WaitId, reason: CloseReason, r: RunId)
    ensures Extends(db, TryClose(db, w, reason), r)
  {
    if r in db.runs { RunHistory.TryCloseHistory(db, w, reason, r); }
  }

  lemma {:induction false} ResolveAllExtends(db: Db, ws: seq<WaitId>, r: RunId)
    ensures Extends(db, ResolveAll(db, ws), r)
    decreases |ws|
  {
    if ws != [] {
      TryCloseExtends(db, ws[0], ByChild, r);
      ResolveAllExtends(TryClose(db, ws[0], ByChild), ws[1..], r);
    }
  }

  lemma SettleExtends(a: Db, b: Db, q: RunId, order: seq<WaitId>, r: RunId)
    requires Extends(a, b, r)
    ensures Extends(a, Settle(b, q, order), r)
  {
    ResolveAllExtends(Abandon(b, q), order, r);
  }

  lemma StopExtends(db: Db, q: RunId, reason: string, text: string, order: seq<WaitId>, r: RunId)
    requires q in db.runs
    ensures Extends(db, CancelTx(db, q, order), r) && Extends(db, FailTx(db, q, reason, order), r)
    ensures Extends(db, FinishTx(db, q, text, order), r)
  {
    SettleExtends(db, Append(SetState(db, q, Cancelled, ""), RunCancelled(q, true)), q, order, r);
    SettleExtends(db, Append(SetState(db, q, Failed, reason), RunFailed(q)), q, order, r);
    var run := db.runs[q].(state := Completed, failure := "", result := text);
    SettleExtends(db, Append(PutRun(db, q, run), RunCompleted(q)), q, order, r);
  }

  lemma ParkTxExtends(db: Db, q: RunId, step: nat, out: StepOutcome, now: Time, r: RunId)
    requires out.Park? && ParkTx(db, q, step, out, now).Committed?
    ensures Extends(db, ParkTx(db, q, step, out, now).value, r)
  {
    var w := WaitId(q, step, out.call);
    var created := CreateWaitRow(db, w, Wait(Open, out.members, now + out.timeout, out.policy, false, None)).value;
    TryCloseExtends(created, w, ByChild, r);
  }

  lemma ClassifyExtends(db: Db, q: RunId, step: nat, out: StepOutcome, now: Time, order: seq<WaitId>, r: RunId)
    requires q in db.runs && ClassifyTx(db, q, step, out, now, order).Committed?
    ensures Extends(db, ClassifyTx(db, q, step, out, now, order).value, r)
  {
    match out
    case Park(_, _, _, _) => ParkTxExtends(db, q, step, out, now, r);
    case Finish(text) => StopExtends(db, q, "", text, order, r);
    case _ =>
  }

  // ---------------------------------------------------------------- the step that does not

  /** A commit that goes through: its transaction records the step. */
  predicate Records(s: State, a: Action) {
    && a.Work? && a.work.Commit? && Executes(s, a.work.worker)
    && WellFormed(a.work.out) && Lists(s.db, JobOf(s, a.work.worker).run, a.work.order)
    && var job := JobOf(s, a.work.worker);
       && job.run in s.db.runs && !s.db.runs[job.run].cancelRequested
       && CommitTx(s.db, job, s.workers[a.work.worker].history, a.work.body, a.work.out, s.now, a.work.order).Committed?
  }

  /** It goes through although its run's history is no longer the copy the worker made when it claimed the step. */
  predicate Overwrites(s: State, a: Action, r: RunId) {
    && Records(s, a) && JobOf(s, a.work.worker).run == r
    && s.workers[a.work.worker].history != s.db.runs[r].history
  }

  /** What has come since is wait outcomes. */
  lemma CopyOvertaken(s: State, a: Action)
    requires RunHistory.Inv(s) && Records(s, a)
    ensures var copy, row := s.workers[a.work.worker].history, s.db.runs[JobOf(s, a.work.worker).run].history;
            copy <= row && RunHistory.OnlyResults(row[|copy|..])
  {
    var k := a.work.worker;
    var job := JobOf(s, k);
    assert RunOrphans.JobOk(s.db, s.db.jobs[s.workers[k].job]);
    RunWaits.FreshWait(s.db, job, "");
    assert RunHistory.CopyOk(s.db, s.workers[k]);
  }

  lemma WrittenOver(copy: seq<Entry>, row: seq<Entry>, step: nat, body: seq<string>, after: seq<Entry>)
    requires copy <= row && RunHistory.OnlyResults(row[|copy|..]) && copy + [Turn(step, body)] <= after
    ensures row <= after <==> row == copy
  {
    if row != copy {
      assert row[|copy|..][0] == row[|copy|];
      assert after[|copy|] == Turn(step, body);
    }
  }

  lemma RecordsOwn(c: Config, s: State, a: Action, r: RunId)
    requires RunHistory.Inv(s) && Records(s, a) && JobOf(s, a.work.worker).run == r
    ensures Extends(s.db, Next(c, s, a).db, r) <==> s.workers[a.work.worker].history == s.db.runs[r].history
  {
    var k, t := a.work.worker, Next(c, s, a);
    var job, copy := JobOf(s, k), s.workers[k].history;
    var recorded := RecordStep(s.db, job, copy, a.work.body);
    CopyOvertaken(s, a);
    ClassifyExtends(recorded, r, job.step, a.work.out, s.now, a.work.order, r);
    assert recorded.runs[r].history == copy + [Turn(job.step, a.work.body)];
    WrittenOver(copy, s.db.runs[r].history, job.step, a.work.body, t.db.runs[r].history);
  }

  lemma RecordsOthers(c: Config, s: State, a: Action, r: RunId)
    requires Records(s, a) && JobOf(s, a.work.worker).run != r
    ensures Extends(s.db, Next(c, s, a).db, r)
  {
    var job := JobOf(s, a.work.worker);
    var recorded := RecordStep(s.db, job, s.workers[a.work.worker].history, a.work.body);
    ClassifyExtends(recorded, job.run, job.step, a.work.out, s.now, a.work.order, r);
  }

  lemma WorkExtends(s: State, a: WorkAction, r: RunId)
    requires !Records(s, Work(a))
    ensures Extends(s.db, WorkStep(s, a).db, r)
  {
    if WorkStep(s, a).db != s.db {
      match a
      case Claim(k, job, order) => StopExtends(s.db, s.db.jobs[job].run, "", "", order, r);
      case Commit(k, body, out, order) => StopExtends(s.db, JobOf(s, k).run, "", "", order, r);
      case Fail(k, reason, order) => StopExtends(s.db, JobOf(s, k).run, reason, "", order, r);
      case StreamCancel(k, order) => StopExtends(s.db, JobOf(s, k).run, "", "", order, r);
      case _ =>
    }
  }

  lemma ApiExtends(s: State, a: ApiAction, r: RunId)
    ensures Extends(s.db, ApiStep(s, a).db, r)
  {
  }

  lemma SweepExtends(c: Config, s: State, a: SweepAction, r: RunId)
    ensures Extends(s.db, SweepStep(c, s, a).db, r)
  {
    if a.SweepResolve? && SweepStep(c, s, a) != s {
      TryCloseExtends(s.db, s.sweepers[a.sweeper].todo[0], ByDeadline, r);
    }
  }

  lemma OthersExtend(c: Config, s: State, a: Action, r: RunId)
    requires !Records(s, a)
    ensures Extends(s.db, Next(c, s, a).db, r)
  {
    match a
    case Api(x) => ApiExtends(s, x, r);
    case Work(x) => WorkExtends(s, x, r);
    case Sweep(x) => SweepExtends(c, s, x, r);
    case Tick(_) =>
  }

  // ---------------------------------------------------------------- theorems

  /** Exactly when a step does not extend a run's history: it commits a copy that has been overtaken. */
  lemma HistoryLostExactlyWhen(c: Config, acts: seq<Action>, a: Action, r: RunId)
    requires r in Exec(c, acts).db.runs
    ensures var s := Exec(c, acts);
            && r in Next(c, s, a).db.runs
            && (!(s.db.runs[r].history <= Next(c, s, a).db.runs[r].history) <==> Overwrites(s, a, r))
  {
    var s := Exec(c, acts);
    RunHistory.ExecInv(c, acts);
    if !Records(s, a) {
      OthersExtend(c, s, a, r);
    } else if JobOf(s, a.work.worker).run == r {
      RecordsOwn(c, s, a, r);
      var recorded := RecordStep(s.db, JobOf(s, a.work.worker), s.workers[a.work.worker].history, a.work.body);
      ClassifyExtends(recorded, r, JobOf(s, a.work.worker).step, a.work.out, s.now, a.work.order, r);
    } else {
      RecordsOthers(c, s, a, r);
    }
  }

  lemma StepExtends(c: Config, acts: seq<Action>, a: Action, r: RunId)
    requires !Overwrites(Exec(c, acts), a, r)
    ensures Extends(Exec(c, acts).db, Next(c, Exec(c, acts), a).db, r)
  {
    if r in Exec(c, acts).db.runs { HistoryLostExactlyWhen(c, acts, a, r); }
  }

  predicate OverwritesAt(c: Config, acts: seq<Action>, j: int, r: RunId)
    requires 0 <= j < |acts|
  {
    Overwrites(Exec(c, acts[..j]), acts[j], r)
  }

  /** So from any point on, without such a step, a run's history only grows at its end. */
  lemma {:induction false} HistoryOnlyExtends(c: Config, acts: seq<Action>, i: nat, r: RunId)
    requires i <= |acts| && forall j :: i <= j < |acts| ==> !OverwritesAt(c, acts, j, r)
    ensures Extends(Exec(c, acts[..i]).db, Exec(c, acts).db, r)
    decreases |acts|
  {
    if i == |acts| {
      assert acts[..i] == acts;
    } else {
      var before, n := acts[..|acts| - 1], |acts| - 1;
      assert before[..i] == acts[..i];
      forall j | i <= j < |before| ensures !OverwritesAt(c, before, j, r) {
        assert before[..j] == acts[..j];
        assert !OverwritesAt(c, acts, j, r);
      }
      HistoryOnlyExtends(c, before, i, r);
      assert !OverwritesAt(c, acts, n, r);
      StepExtends(c, before, acts[n], r);
      ExtendsTransitive(Exec(c, acts[..i]).db, Exec(c, before).db, Exec(c, acts).db, r);
    }
  }
}

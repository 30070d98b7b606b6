/**
  What no step of the machine ever takes back: rows are never removed, step
  rows, jobs, sweeps and events are only appended, failed and cancelled are
  never left (except failed for cancelled), and a wait leaves open once.
 */
module RunEvolution {
  import opened Options
  import opened RunTables
  import opened RunMachine

  predicate RunEvolves(a: Run, b: Run) {
    && a.steps <= b.steps
    && (a.cancelRequested ==> b.cancelRequested)
    && (a.state.Cancelled? ==> b.state.Cancelled?)
    && (a.state.Failed? ==> b.state.Failed? || b.state.Cancelled?)
    && (b.state.Pending? ==> a.state.Pending?)
  }

  predicate WaitEvolves(a: Wait, b: Wait) {
    && b.members == a.members && b.deadline == a.deadline && b.policy == a.policy
    && (!a.state.Open? ==> b.state == a.state)
    && (a.resumed ==> b.resumed)
  }

  predicate Evolves(a: Db, b: Db) {
    && (forall r :: r in a.runs ==> r in b.runs && RunEvolves(a.runs[r], b.runs[r]))
    && (forall w :: w in a.waits ==> w in b.waits && WaitEvolves(a.waits[w], b.waits[w]))
    && a.jobs <= b.jobs && a.sweeps <= b.sweeps && a.log <= b.log
  }

  lemma EvolvesTransitive(a: Db, b: Db, c: Db)
    requires Evolves(a, b) && Evolves(b, c)
    ensures Evolves(a, c)
  {
    forall r | r in a.runs ensures r in c.runs && RunEvolves(a.runs[r], c.runs[r]) {
      assert r in b.runs && RunEvolves(b.runs[r], c.runs[r]);
    }
    forall w | w in a.waits ensures w in c.waits && WaitEvolves(a.waits[w], c.waits[w]) {
      assert w in b.waits && WaitEvolves(b.waits[w], c.waits[w]);
    }
  }

  lemma PutWaitEvolves(db: Db, w: WaitId, wait: Wait)
    requires w in db.waits ==> WaitEvolves(db.waits[w], wait)
    ensures Evolves(db, PutWait(db, w, wait))
  {
  }

  lemma PutRunEvolves(db: Db, r: RunId, run: Run)
    requires r in db.runs ==> RunEvolves(db.runs[r], run)
    ensures Evolves(db, PutRun(db, r, run))
  {
  }

  lemma ResumeParentEvolves(db: Db, w: WaitId, o: Outcome)
    requires w in db.waits
    ensures Evolves(db, ResumeParent(db, w, o))
  {
    var db1 := PutWait(db, w, db.waits[w].(resumed := true));
    PutWaitEvolves(db, w, db.waits[w].(resumed := true));
    if Resumes(db, w) {
      var db2 := PutRun(db1, w.parent, ResumeParent(db, w, o).runs[w.parent]);
      PutRunEvolves(db1, w.parent, ResumeParent(db, w, o).runs[w.parent]);
      EvolvesTransitive(db, db1, db2);
      EvolvesTransitive(db, db2, ResumeParent(db, w, o));
    }
  }

  lemma TryCloseEvolves(db: Db, w: WaitId, reason: CloseReason)
    ensures Evolves(db, TryClose(db, w, reason))
  {
    if Closable(db, w, reason) {
      var wait := db.waits[w];
      var o := Settlement(db, wait, reason);
      var closed := if wait.state.Open? then wait.(state := o.state, result := Some(o)) else wait.(result := Some(o));
      PutWaitEvolves(db, w, closed);
      ResumeParentEvolves(PutWait(db, w, closed), w, o);
      EvolvesTransitive(db, PutWait(db, w, closed), TryClose(db, w, reason));
    }
  }

  lemma {:induction false} ResolveAllEvolves(db: Db, ws: seq<WaitId>)
    ensures Evolves(db, ResolveAll(db, ws))
    decreases |ws|
  {
    if ws != [] {
      var db1 := TryClose(db, ws[0], ByChild);
      TryCloseEvolves(db, ws[0], ByChild);
      ResolveAllEvolves(db1, ws[1..]);
      EvolvesTransitive(db, db1, ResolveAll(db1, ws[1..]));
    }
  }

  lemma SettleEvolves(db: Db, r: RunId, order: seq<WaitId>)
    ensures Evolves(db, Settle(db, r, order))
  {
    AbandonEvolves(db, r);
    ResolveAllEvolves(Abandon(db, r), order);
    EvolvesTransitive(db, Abandon(db, r), Settle(db, r, order));
  }

  lemma CancelTxEvolves(db: Db, r: RunId, order: seq<WaitId>)
    ensures Evolves(db, CancelTx(db, r, order))
  {
    var db1 := Append(SetState(db, r, Cancelled, ""), RunCancelled(r, true));
    assert Evolves(db, db1);
    SettleEvolves(db1, r, order);
    EvolvesTransitive(db, db1, CancelTx(db, r, order));
  }

  lemma FailTxEvolves(db: Db, r: RunId, reason: string, order: seq<WaitId>)
    ensures Evolves(db, FailTx(db, r, reason, order))
  {
    if r in db.runs && !db.runs[r].state.Terminal() {
      var db1 := Append(SetState(db, r, Failed, reason), RunFailed(r));
      assert Evolves(db, db1);
      SettleEvolves(db1, r, order);
      EvolvesTransitive(db, db1, FailTx(db, r, reason, order));
    }
  }

  lemma ParkRowsEvolves(db: Db, r: RunId, deadline: Time)
    requires r in db.runs && !db.runs[r].state.Terminal()
    ensures Evolves(db, ParkRows(db, r, deadline))
  {
  }

  lemma CreateWaitRowEvolves(db: Db, w: WaitId, wait: Wait)
    requires CreateWaitRow(db, w, wait).Committed?
    ensures Evolves(db, CreateWaitRow(db, w, wait).value)
    ensures CreateWaitRow(db, w, wait).value.runs == db.runs
  {
  }

  /** An attempt to close a wait moves no run into or out of a terminal state. */
  lemma TryCloseKeepsTerminal(db: Db, w: WaitId, reason: CloseReason, r: RunId)
    ensures IsTerminal(TryClose(db, w, reason), r) == IsTerminal(db, r)
    ensures r in TryClose(db, w, reason).runs <==> r in db.runs
  {
  }

  lemma ParkTxEvolves(db: Db, r: RunId, step: nat, out: StepOutcome, now: Time)
    requires out.Park? && ParkTx(db, r, step, out, now).Committed?
    requires r in db.runs && !db.runs[r].state.Terminal()
    ensures Evolves(db, ParkTx(db, r, step, out, now).value)
  {
    var w := WaitId(r, step, out.call);
    var wait := Wait(Open, out.members, now + out.timeout, out.policy, false, None);
    var created := CreateWaitRow(db, w, wait).value;
    var evaluated := TryClose(created, w, ByChild);
    CreateWaitRowEvolves(db, w, wait);
    TryCloseEvolves(created, w, ByChild);
    EvolvesTransitive(db, created, evaluated);
    TryCloseKeepsTerminal(created, w, ByChild, r);
    ParkRowsEvolves(evaluated, r, now + out.timeout);
    EvolvesTransitive(db, evaluated, ParkRows(evaluated, r, now + out.timeout));
  }

  lemma CommitTxEvolves(db: Db, job: StepJob, history: seq<Entry>, body: seq<string>, out: StepOutcome,
                        now: Time, order: seq<WaitId>)
    requires CommitTx(db, job, history, body, out, now, order).Committed?
    ensures Evolves(db, CommitTx(db, job, history, body, out, now, order).value)
  {
    var after := CommitTx(db, job, history, body, out, now, order).value;
    if db.runs[job.run].cancelRequested {
      CancelTxEvolves(db, job.run, order);
    } else {
      var recorded := RecordStep(db, job, history, body);
      assert Evolves(db, recorded);
      match out
      case Park(_, _, _, _) =>
        ParkTxEvolves(recorded, job.run, job.step, out, now);
        EvolvesTransitive(db, recorded, after);
      case Ask =>
      case Continue =>
      case Finish(text) =>
        var run := recorded.runs[job.run].(state := Completed, failure := "", result := text);
        var done := Append(PutRun(recorded, job.run, run), RunCompleted(job.run));
        assert Evolves(db, done);
        SettleEvolves(done, job.run, order);
        EvolvesTransitive(db, done, after);
    }
  }

  lemma StartTxEvolves(db: Db, r: RunId, prompt: string)
    ensures StartTx(db, r, prompt).Committed? ==> Evolves(db, StartTx(db, r, prompt).value)
  {
    if r !in db.runs { PutRunEvolves(db, r, NewRun(prompt)); }
  }

  lemma SpawnTxEvolves(db: Db, parent: RunId, child: RunId, prompt: string)
    ensures SpawnTx(db, parent, child, prompt).Committed? ==> Evolves(db, SpawnTx(db, parent, child, prompt).value)
  {
    if child !in db.runs { PutRunEvolves(db, child, NewRun(prompt)); }
  }

  lemma AnswerTxEvolves(db: Db, r: RunId, text: string)
    ensures AnswerTx(db, r, text).Committed? ==> Evolves(db, AnswerTx(db, r, text).value)
  {
    if AnswerTx(db, r, text).Committed? { PutRunEvolves(db, r, AnswerTx(db, r, text).value.runs[r]); }
  }

  lemma AbandonEvolves(db: Db, r: RunId)
    ensures Evolves(db, Abandon(db, r))
  {
  }

  lemma CancelHandlerEvolves(db: Db, r: RunId)
    ensures CancelRequestTx(db, r).Committed? ==> Evolves(db, CancelRequestTx(db, r).value)
    ensures ExpireTx(db, r).Committed? ==> Evolves(db, ExpireTx(db, r).value)
  {
    if CancelRequestTx(db, r).Committed? {
      var db1 := PutRun(db, r, CancelRequestTx(db, r).value.runs[r]);
      PutRunEvolves(db, r, CancelRequestTx(db, r).value.runs[r]);
      AbandonEvolves(db1, r);
      EvolvesTransitive(db, db1, Abandon(db1, r));
    }
    if ExpireTx(db, r).Committed? {
      var db1 := PutRun(db, r, ExpireTx(db, r).value.runs[r]);
      PutRunEvolves(db, r, ExpireTx(db, r).value.runs[r]);
      AbandonEvolves(db1, r);
      EvolvesTransitive(db, db1, Abandon(db1, r));
    }
  }

  lemma ClaimTxEvolves(db: Db, job: StepJob, order: seq<WaitId>)
    ensures Evolves(db, ClaimTx(db, job, order).db)
  {
    if job.run in db.runs && db.runs[job.run].state.Active() {
      if db.runs[job.run].cancelRequested {
        CancelTxEvolves(db, job.run, order);
      } else {
        PutRunEvolves(db, job.run, db.runs[job.run].(state := Running, failure := ""));
      }
    }
  }

  lemma ApiEvolves(s: State, a: ApiAction)
    ensures Evolves(s.db, ApiStep(s, a).db)
  {
    match a
    case Start(r, text) => StartTxEvolves(s.db, r, text);
    case AnswerRun(r, text) => AnswerTxEvolves(s.db, r, text);
    case CancelRun(r) => CancelHandlerEvolves(s.db, r);
    case ExpireRun(r) => CancelHandlerEvolves(s.db, r);
  }

  lemma WorkEvolves(s: State, a: WorkAction)
    ensures Evolves(s.db, WorkStep(s, a).db)
  {
    match a
    case Claim(k, job, order) =>
      if job < |s.db.jobs| { ClaimTxEvolves(s.db, s.db.jobs[job], order); }
    case Spawn(k, child, prompt) =>
      if Executes(s, k) { SpawnTxEvolves(s.db, JobOf(s, k).run, child, prompt); }
    case Commit(k, body, out, order) =>
      if Executes(s, k) && CommitTx(s.db, JobOf(s, k), s.workers[k].history, body, out, s.now, order).Committed? {
        CommitTxEvolves(s.db, JobOf(s, k), s.workers[k].history, body, out, s.now, order);
      }
    case Fail(k, reason, order) =>
      if Executes(s, k) { FailTxEvolves(s.db, JobOf(s, k).run, reason, order); }
    case StreamCancel(k, order) =>
      if Executes(s, k) { CancelTxEvolves(s.db, JobOf(s, k).run, order); }
    case _ =>
  }

  lemma SweepEvolves(c: Config, s: State, a: SweepAction)
    ensures Evolves(s.db, SweepStep(c, s, a).db)
  {
    match a
    case SweepResolve(k) =>
      if k in s.sweepers && s.sweepers[k].Resolving? && s.sweepers[k].todo != [] {
        TryCloseEvolves(s.db, s.sweepers[k].todo[0], ByDeadline);
      }
    case SweepClaim(k, job, due, locked) => SweepClaimEvolves(c, s, k, job, due, locked);
    case _ =>
  }

  lemma NextEvolves(c: Config, s: State, a: Action)
    ensures Evolves(s.db, Next(c, s, a).db)
  {
    match a
    case Api(x) => ApiEvolves(s, x);
    case Work(x) => WorkEvolves(s, x);
    case Sweep(x) => SweepEvolves(c, s, x);
    case Tick(_) =>
  }

  lemma SweepClaimEvolves(c: Config, s: State, k: nat, job: nat, due: seq<WaitId>, locked: set<WaitId>)
    ensures Evolves(s.db, SweepClaimStep(c, s, k, job, due, locked).db)
  {
  }

  /** Whatever happened by an earlier point of a run still stands at every later point. */
  lemma {:induction false} ExecEvolves(c: Config, acts: seq<Action>, i: nat)
    requires i <= |acts|
    ensures Evolves(Exec(c, acts[..i]).db, Exec(c, acts).db)
    decreases |acts|
  {
    if i == |acts| {
      assert acts[..i] == acts;
    } else {
      var before := acts[..|acts| - 1];
      assert before[..i] == acts[..i];
      ExecEvolves(c, before, i);
      NextEvolves(c, Exec(c, before), acts[|acts| - 1]);
      EvolvesTransitive(Exec(c, acts[..i]).db, Exec(c, before).db, Exec(c, acts).db);
    }
  }
}

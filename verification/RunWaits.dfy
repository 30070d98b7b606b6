/**
  Fan-in waits over whole runs: who may hold an open wait, what a closed row
  says, how often a wait resumes its parent, and why no wake-up is lost.
 */
module RunWaits {
  import opened Options
  import opened RunTables
  import opened RunMachine
  import opened RunEvolution
  import opened RunTally
  import RunOrphans

  // ---------------------------------------------------------------- injections

  /** The waits that enqueued a step job, in the order they did. */
  function ByWaits(jobs: seq<StepJob>): seq<WaitId> {
    if jobs == [] then [] else
    var last := jobs[|jobs| - 1];
    ByWaits(jobs[..|jobs| - 1]) + if last.cause.ByWait? then [last.cause.wait] else []
  }

  /** The waits whose outcome was appended to a session log, in the order it was. */
  function Results(log: seq<Event>): seq<WaitId> {
    if log == [] then [] else
    var last := log[|log| - 1];
    Results(log[..|log| - 1]) + if last.ToolResulted? then [last.wait] else []
  }

  lemma ByWaitsAppend(jobs: seq<StepJob>, job: StepJob)
    ensures ByWaits(jobs + [job]) == ByWaits(jobs) + if job.cause.ByWait? then [job.cause.wait] else []
  {
    assert (jobs + [job])[..|jobs|] == jobs;
  }

  lemma ResultsAppend(log: seq<Event>, e: Event)
    ensures Results(log + [e]) == Results(log) + if e.ToolResulted? then [e.wait] else []
  {
    assert (log + [e])[..|log|] == log;
  }

  // ---------------------------------------------------------------- the invariant

  /** What a wait row says, state by state. */
  ghost predicate RowOk(db: Db, w: WaitId, wait: Wait) {
    && w.parent in db.runs && w.step < |db.runs[w.parent].steps|
    && wait.members != [] && (forall m :: m in wait.members ==> m in db.runs)
    && match wait.state
       case Open => !wait.resumed && wait.result.None?
       case Abandoned => wait.resumed && wait.result == Some(ABANDONED_OUTCOME)
       case Resolved =>
         && wait.resumed && wait.result.Some? && wait.result.value.pending == 0
         && WellTallied(wait.result.value, wait.members, |wait.members|)
       case TimedOut =>
         && (wait.resumed <==> wait.result.Some?)
         && (wait.result.Some? ==> WellTallied(wait.result.value, wait.members, |wait.members|))
  }

  ghost predicate Rows(db: Db) {
    forall w {:trigger RowOk(db, w, db.waits[w])} :: w in db.waits ==> RowOk(db, w, db.waits[w])
  }

  predicate IsOpen(db: Db, w: WaitId) {
    w in db.waits && db.waits[w].state.Open?
  }

  /** No terminal run holds an open wait. */
  ghost predicate Held(db: Db) {
    forall w {:trigger IsOpen(db, w)} :: IsOpen(db, w) ==> !IsTerminal(db, w.parent)
  }

  ghost predicate OneOpen(db: Db) {
    forall v, w {:trigger IsOpen(db, v), IsOpen(db, w)} ::
      IsOpen(db, v) && IsOpen(db, w) && v.parent == w.parent ==> v == w
  }

  /** Each resumption enqueued one job and logged one result, and is recorded on its row. */
  ghost predicate Injects(db: Db) {
    && ByWaits(db.jobs) == Results(db.log)
    && Distinct(ByWaits(db.jobs))
    && (forall w :: w in ByWaits(db.jobs) ==> w in db.waits && db.waits[w].resumed)
  }

  /** m will still settle the waits it belongs to, or was cancelled past its worker. */
  predicate Pulls(db: Db, m: RunId) {
    !IsTerminal(db, m) || RunCancelled(m, false) in db.log
  }

  ghost predicate Hopeful(db: Db, w: WaitId) {
    w in db.waits && exists m :: m in db.waits[w].members && Pulls(db, m)
  }

  ghost predicate Hopes(db: Db, excused: seq<WaitId>) {
    forall w {:trigger IsOpen(db, w)} :: IsOpen(db, w) && w !in excused ==> Hopeful(db, w)
  }

  ghost predicate Good(db: Db, excused: seq<WaitId>) {
    Rows(db) && Held(db) && OneOpen(db) && Injects(db) && Hopes(db, excused)
  }

  // ---------------------------------------------------------------- steps that leave every wait row alone

  lemma RowsStep(a: Db, b: Db)
    requires Rows(a) && Evolves(a, b)
    requires forall w :: w in b.waits ==>
               (w in a.waits && b.waits[w] == a.waits[w]) || RowOk(b, w, b.waits[w])
    ensures Rows(b)
  {
    forall w | w in b.waits ensures RowOk(b, w, b.waits[w]) {
      if w in a.waits && b.waits[w] == a.waits[w] {
        assert RowOk(a, w, a.waits[w]);
        assert RunEvolves(a.runs[w.parent], b.runs[w.parent]);
      }
    }
  }

  lemma HopefulStays(a: Db, b: Db, w: WaitId)
    requires Hopeful(a, w) && Evolves(a, b)
    requires forall m :: m in a.waits[w].members && m in a.runs && IsTerminal(b, m) ==> Pulls(a, m) ==> Pulls(b, m)
    requires forall m :: m in a.waits[w].members ==> m in a.runs
    ensures Hopeful(b, w)
  {
    var m :| m in a.waits[w].members && Pulls(a, m);
    assert WaitEvolves(a.waits[w], b.waits[w]);
    assert m in b.waits[w].members && Pulls(b, m);
  }

  /** b resumed, beyond what a had, only parents that were not terminal in a. */
  ghost predicate Targets(a: Db, b: Db) {
    forall v {:trigger v in ByWaits(b.jobs)} :: v in ByWaits(b.jobs) ==>
      v in ByWaits(a.jobs) || (v.parent in a.runs && !IsTerminal(a, v.parent))
  }

  lemma OneOpenStep(a: Db, b: Db)
    requires OneOpen(a) && forall w {:trigger IsOpen(b, w)} :: IsOpen(b, w) ==> IsOpen(a, w)
    ensures OneOpen(b)
  {
  }

  predicate SameInjections(a: Db, b: Db) {
    ByWaits(b.jobs) == ByWaits(a.jobs) && Results(b.log) == Results(a.log)
  }

  /** A transaction that touches no wait row, injects nothing and makes no run terminal. */
  lemma QuietGood(a: Db, b: Db, excused: seq<WaitId>)
    requires Good(a, excused) && Evolves(a, b) && b.waits == a.waits && SameInjections(a, b)
    requires forall r :: IsTerminal(b, r) ==> r in a.runs ==> IsTerminal(a, r)
    ensures Good(b, excused)
  {
    RowsStep(a, b);
    forall w | IsOpen(b, w) ensures !IsTerminal(b, w.parent) && (w !in excused ==> Hopeful(b, w)) {
      assert IsOpen(a, w) && RowOk(a, w, a.waits[w]);
      if w !in excused {
        HopefulStays(a, b, w);
      }
    }
    OneOpenStep(a, b);
  }

  // ---------------------------------------------------------------- closing one wait

  lemma TryCloseShape(db: Db, w: WaitId, reason: CloseReason)
    requires Closable(db, w, reason)
    ensures var b := TryClose(db, w, reason); var o := Settlement(db, db.waits[w], reason);
            && b.waits == db.waits[w := db.waits[w].(
                                          state := if db.waits[w].state.Open? then o.state else db.waits[w].state,
                                          result := Some(o), resumed := true)]
            && (Resumes(db, w) ==>
                  && b.jobs == db.jobs + [StepJob(w.parent, NextStep(db.runs[w.parent].steps), ByWait(w))]
                  && b.log == db.log + [ToolResulted(w, o, ResultIsError(db.waits[w], o))])
            && (!Resumes(db, w) ==> b.jobs == db.jobs && b.log == db.log && b.runs == db.runs)
  {
  }

  /** Closing for its children or its deadline leaves a truthful row. */
  lemma ClosedRowOk(db: Db, w: WaitId, reason: CloseReason)
    requires Closable(db, w, reason) && RowOk(db, w, db.waits[w])
    requires db.waits[w].state.Open? || (db.waits[w].state.TimedOut? && reason.ByDeadline?)
    ensures w in TryClose(db, w, reason).waits
    ensures RowOk(TryClose(db, w, reason), w, TryClose(db, w, reason).waits[w])
  {
    TryCloseShape(db, w, reason);
    TryCloseEvolves(db, w, reason);
    assert RunEvolves(db.runs[w.parent], TryClose(db, w, reason).runs[w.parent]);
    TallyWell(db, db.waits[w].members, |db.waits[w].members|);
  }

  lemma TryCloseInjects(db: Db, w: WaitId, reason: CloseReason)
    requires Injects(db)
    ensures Injects(TryClose(db, w, reason))
    ensures Targets(db, TryClose(db, w, reason))
  {
    if Closable(db, w, reason) {
      var b := TryClose(db, w, reason);
      TryCloseShape(db, w, reason);
      if Resumes(db, w) {
        ByWaitsAppend(db.jobs, b.jobs[|db.jobs|]);
        ResultsAppend(db.log, b.log[|db.log|]);
      }
    }
  }

  /** An open wait that its children cannot close yet still has a child to wait for. */
  lemma StillPending(db: Db, w: WaitId)
    requires w in db.waits && !Closable(db, w, ByChild)
    ensures Hopeful(db, w)
  {
    TallyPending(db, db.waits[w].members, |db.waits[w].members|);
    var i :| 0 <= i < |db.waits[w].members| && !IsTerminal(db, db.waits[w].members[i]);
    assert db.waits[w].members[i] in db.waits[w].members && Pulls(db, db.waits[w].members[i]);
  }

  lemma TryCloseRows(db: Db, w: WaitId, reason: CloseReason)
    requires Rows(db) && w in db.waits
    requires db.waits[w].state.Open? || (db.waits[w].state.TimedOut? && reason.ByDeadline?)
    ensures Rows(TryClose(db, w, reason))
  {
    assert RowOk(db, w, db.waits[w]);
    TryCloseEvolves(db, w, reason);
    if Closable(db, w, reason) {
      TryCloseShape(db, w, reason);
      ClosedRowOk(db, w, reason);
    }
    RowsStep(db, TryClose(db, w, reason));
  }

  /** What is open after an attempt was open before; the wait itself stays open only unclosable. */
  lemma TryCloseOpens(db: Db, w: WaitId, reason: CloseReason, v: WaitId)
    requires IsOpen(TryClose(db, w, reason), v)
    ensures IsOpen(db, v) && (v == w ==> TryClose(db, w, reason) == db && !Closable(db, w, ByChild))
  {
    if Closable(db, w, reason) { TryCloseShape(db, w, reason); }
  }

  lemma TryCloseHopeful(db: Db, w: WaitId, reason: CloseReason, v: WaitId)
    requires Hopeful(db, v) && RowOk(db, v, db.waits[v])
    ensures Hopeful(TryClose(db, w, reason), v)
  {
    var b := TryClose(db, w, reason);
    TryCloseEvolves(db, w, reason);
    forall m | m in db.waits[v].members ensures Pulls(db, m) ==> Pulls(b, m) {
      TryCloseKeepsTerminal(db, w, reason, m);
    }
    HopefulStays(db, b, v);
  }

  lemma TryCloseGood(db: Db, w: WaitId, reason: CloseReason, before: seq<WaitId>, after: seq<WaitId>)
    requires Good(db, before) && w in db.waits
    requires db.waits[w].state.Open? || (db.waits[w].state.TimedOut? && reason.ByDeadline?)
    requires forall v :: v in before ==> v == w || v in after
    ensures Good(TryClose(db, w, reason), after)
  {
    var b := TryClose(db, w, reason);
    TryCloseRows(db, w, reason);
    TryCloseInjects(db, w, reason);
    forall v | IsOpen(b, v) ensures IsOpen(db, v) && !IsTerminal(b, v.parent) && (v !in after ==> Hopeful(b, v)) {
      TryCloseOpens(db, w, reason, v);
      TryCloseKeepsTerminal(db, w, reason, v.parent);
      if v == w {
        StillPending(db, w);
      } else if v !in after {
        assert RowOk(db, v, db.waits[v]);
        TryCloseHopeful(db, w, reason, v);
      }
    }
    OneOpenStep(db, b);
  }

  lemma {:induction false} ResolveAllGood(db: Db, ws: seq<WaitId>)
    requires Good(db, ws) && Distinct(ws) && forall w :: w in ws ==> IsOpen(db, w)
    ensures Good(ResolveAll(db, ws), [])
    ensures Targets(db, ResolveAll(db, ws))
    decreases |ws|
  {
    if ws != [] {
      var b := TryClose(db, ws[0], ByChild);
      assert IsOpen(db, ws[0]);
      TryCloseGood(db, ws[0], ByChild, ws, ws[1..]);
      TryCloseInjects(db, ws[0], ByChild);
      forall w | w in ws[1..] ensures IsOpen(b, w) {
        assert IsOpen(db, w) && w != ws[0];
      }
      ResolveAllGood(b, ws[1..]);
      forall v | v in ByWaits(ResolveAll(db, ws).jobs)
        ensures v in ByWaits(db.jobs) || (v.parent in db.runs && !IsTerminal(db, v.parent))
      {
        TryCloseKeepsTerminal(db, ws[0], ByChild, v.parent);
      }
    }
  }

  // ---------------------------------------------------------------- a run stops

  /** b is a with run r made terminal and one event logged, before its waits are settled. */
  ghost predicate Stops(a: Db, b: Db, r: RunId) {
    && Evolves(a, b) && b.waits == a.waits && SameInjections(a, b)
    && IsTerminal(b, r)
    && (forall q :: q != r && IsTerminal(b, q) ==> q in a.runs ==> IsTerminal(a, q))
  }

  lemma AbandonRows(db: Db, r: RunId)
    requires Rows(db)
    ensures Rows(Abandon(db, r))
  {
    AbandonEvolves(db, r);
    forall w | w in db.waits && IsOpen(db, w) && w.parent == r
      ensures RowOk(Abandon(db, r), w, Abandon(db, r).waits[w])
    {
      assert RowOk(db, w, db.waits[w]);
    }
    RowsStep(db, Abandon(db, r));
  }

  /** After a stop, abandoning the run's own waits leaves only its memberships to settle. */
  lemma AbandonGood(a: Db, b: Db, r: RunId, order: seq<WaitId>)
    requires Good(a, []) && Stops(a, b, r) && Lists(a, r, order)
    ensures Good(Abandon(b, r), order) && forall w :: w in order ==> IsOpen(Abandon(b, r), w)
  {
    var d := Abandon(b, r);
    RowsStep(a, b);
    AbandonRows(b, r);
    AbandonEvolves(b, r);
    EvolvesTransitive(a, b, d);
    forall w | IsOpen(d, w) ensures !IsTerminal(d, w.parent) && (w !in order ==> Hopeful(d, w)) {
      assert IsOpen(a, w) && RowOk(a, w, a.waits[w]);
      if w !in order {
        assert r !in a.waits[w].members;
        HopefulStays(a, d, w);
      }
    }
    OneOpenStep(a, d);
  }

  lemma SettleGood(a: Db, b: Db, r: RunId, order: seq<WaitId>)
    requires Good(a, []) && Stops(a, b, r) && Lists(a, r, order)
    ensures Good(Settle(b, r, order), [])
    ensures Targets(b, Settle(b, r, order))
  {
    AbandonGood(a, b, r, order);
    ResolveAllGood(Abandon(b, r), order);
  }

  lemma CancelTxGood(db: Db, r: RunId, order: seq<WaitId>)
    requires Good(db, []) && r in db.runs && Lists(db, r, order)
    ensures Good(CancelTx(db, r, order), [])
    ensures Targets(db, CancelTx(db, r, order))
  {
    var b := Append(SetState(db, r, Cancelled, ""), RunCancelled(r, true));
    PutRunEvolves(db, r, db.runs[r].(state := Cancelled, failure := ""));
    ResultsAppend(db.log, RunCancelled(r, true));
    SettleGood(db, b, r, order);
  }

  lemma FailTxGood(db: Db, r: RunId, reason: string, order: seq<WaitId>)
    requires Good(db, []) && Lists(db, r, order)
    ensures Good(FailTx(db, r, reason, order), [])
    ensures Targets(db, FailTx(db, r, reason, order))
  {
    if r in db.runs && !db.runs[r].state.Terminal() {
      var b := Append(SetState(db, r, Failed, reason), RunFailed(r));
      PutRunEvolves(db, r, db.runs[r].(state := Failed, failure := reason));
      ResultsAppend(db.log, RunFailed(r));
      SettleGood(db, b, r, order);
    }
  }

  /** The handlers' cancellation abandons what the run held and logs that nobody was told. */
  lemma UnsettledCancelGood(a: Db, b: Db, r: RunId)
    requires Good(a, []) && Stops(a, b, r) && RunCancelled(r, false) in b.log
    ensures Good(Abandon(b, r), [])
  {
    var d := Abandon(b, r);
    RowsStep(a, b);
    AbandonRows(b, r);
    AbandonEvolves(b, r);
    EvolvesTransitive(a, b, d);
    forall w | IsOpen(d, w) ensures !IsTerminal(d, w.parent) && Hopeful(d, w) {
      assert IsOpen(a, w) && RowOk(a, w, a.waits[w]);
      HopefulStays(a, d, w);
    }
    OneOpenStep(a, d);
  }

  lemma HandlerCancelGood(db: Db, r: RunId, failure: string)
    requires Good(db, []) && r in db.runs
    ensures var run := db.runs[r].(cancelRequested := true, state := Cancelled, failure := failure);
            Good(Abandon(Append(PutRun(db, r, run), RunCancelled(r, false)), r), [])
  {
    var run := db.runs[r].(cancelRequested := true, state := Cancelled, failure := failure);
    ResultsAppend(db.log, RunCancelled(r, false));
    PutRunEvolves(db, r, run);
    UnsettledCancelGood(db, Append(PutRun(db, r, run), RunCancelled(r, false)), r);
  }

  lemma CancelRequestTxGood(db: Db, r: RunId)
    requires Good(db, [])
    ensures CancelRequestTx(db, r).Committed? ==> Good(CancelRequestTx(db, r).value, [])
  {
    if CancelRequestTx(db, r).Committed? {
      if db.runs[r].state.Awaiting? {
        var run := db.runs[r].(cancelRequested := true, state := Cancelled, failure := "");
        HandlerCancelGood(db, r, "");
        assert CancelRequestTx(db, r).value == Abandon(Append(PutRun(db, r, run), RunCancelled(r, false)), r);
      } else {
        PutRunEvolves(db, r, db.runs[r].(cancelRequested := true));
        QuietGood(db, PutRun(db, r, db.runs[r].(cancelRequested := true)), []);
      }
    }
  }

  lemma ExpireTxGood(db: Db, r: RunId)
    requires Good(db, [])
    ensures ExpireTx(db, r).Committed? ==> Good(ExpireTx(db, r).value, [])
  {
    if ExpireTx(db, r).Committed? {
      var run := db.runs[r].(cancelRequested := true, state := Cancelled, failure := "expired");
      HandlerCancelGood(db, r, "expired");
      assert ExpireTx(db, r).value == Abandon(Append(PutRun(db, r, run), RunCancelled(r, false)), r);
    }
  }

  // ---------------------------------------------------------------- a run starts, is answered, advances

  lemma CreateRunGood(db: Db, r: RunId, prompt: string, e: Event)
    requires Good(db, []) && r !in db.runs && !e.ToolResulted?
    ensures Good(EnqueueStep(Append(PutRun(db, r, NewRun(prompt)), e), StepJob(r, 0, ByStart)), [])
  {
    var b := EnqueueStep(Append(PutRun(db, r, NewRun(prompt)), e), StepJob(r, 0, ByStart));
    PutRunEvolves(db, r, NewRun(prompt));
    ResultsAppend(db.log, e);
    ByWaitsAppend(db.jobs, StepJob(r, 0, ByStart));
    QuietGood(db, b, []);
  }

  lemma AnswerTxGood(db: Db, r: RunId, text: string)
    requires Good(db, [])
    ensures AnswerTx(db, r, text).Committed? ==>
              Good(AnswerTx(db, r, text).value, []) && Targets(db, AnswerTx(db, r, text).value)
  {
    if AnswerTx(db, r, text).Committed? {
      var b := AnswerTx(db, r, text).value;
      AnswerTxEvolves(db, r, text);
      ResultsAppend(db.log, b.log[|db.log|]);
      ByWaitsAppend(db.jobs, b.jobs[|db.jobs|]);
      QuietGood(db, b, []);
    }
  }

  lemma ClaimTxGood(db: Db, job: StepJob, order: seq<WaitId>)
    requires Good(db, []) && Lists(db, job.run, order)
    ensures Good(ClaimTx(db, job, order).db, [])
    ensures Targets(db, ClaimTx(db, job, order).db)
  {
    if job.run in db.runs && db.runs[job.run].state.Active() {
      if db.runs[job.run].cancelRequested {
        CancelTxGood(db, job.run, order);
      } else {
        var run := db.runs[job.run].(state := Running, failure := "");
        PutRunEvolves(db, job.run, run);
        QuietGood(db, PutRun(db, job.run, run), []);
      }
    }
  }

  lemma RecordStepGood(db: Db, job: StepJob, history: seq<Entry>, body: seq<string>)
    requires Good(db, []) && job.run in db.runs
    ensures Good(RecordStep(db, job, history, body), []) && Evolves(db, RecordStep(db, job, history, body))
    ensures SameInjections(db, RecordStep(db, job, history, body))
  {
    var b := RecordStep(db, job, history, body);
    PutRunEvolves(db, job.run, b.runs[job.run]);
    ResultsAppend(db.log, StepFinished(job.run, job.step, body));
    QuietGood(db, b, []);
  }

  /** A new wait is sound except that nobody has looked at its members yet. */
  lemma CreateWaitGood(db: Db, w: WaitId, wait: Wait)
    requires Good(db, []) && w !in db.waits && CreateWaitRow(db, w, wait).Committed?
    requires wait.state.Open? && !wait.resumed && wait.result.None? && wait.members != []
    requires w.parent in db.runs && !IsTerminal(db, w.parent) && w.step < |db.runs[w.parent].steps|
    ensures Good(PutWait(db, w, wait), [w])
  {
    var b := PutWait(db, w, wait);
    PutWaitEvolves(db, w, wait);
    RowsStep(db, b);
    forall v | IsOpen(b, v) ensures !IsTerminal(b, v.parent) && (v != w ==> Hopeful(b, v)) {
      if v != w {
        assert IsOpen(db, v) && RowOk(db, v, db.waits[v]);
        HopefulStays(db, b, v);
      }
    }
    forall u, v | IsOpen(b, u) && IsOpen(b, v) && u.parent == v.parent ensures u == v {
      if u != w && v != w { assert IsOpen(db, u) && IsOpen(db, v); }
    }
  }

  /** Evaluating a wait as soon as it exists leaves no wait unlooked at. */
  lemma ParkRowsGood(db: Db, r: RunId, deadline: Time)
    requires Good(db, []) && r in db.runs && !IsTerminal(db, r)
    ensures Good(ParkRows(db, r, deadline), [])
  {
    ResultsAppend(db.log, RunAwaiting(r));
    ParkRowsEvolves(db, r, deadline);
    QuietGood(db, ParkRows(db, r, deadline), []);
  }

  lemma EvaluateGood(db: Db, w: WaitId, wait: Wait, deadline: Time)
    requires Good(PutWait(db, w, wait), [w]) && wait.state.Open?
    requires w.parent in db.runs && !IsTerminal(db, w.parent)
    ensures var b := Evaluate(PutWait(db, w, wait), w, deadline); Good(b, []) && Targets(db, b)
  {
    var created := PutWait(db, w, wait);
    var evaluated := TryClose(created, w, ByChild);
    TryCloseGood(created, w, ByChild, [w], []);
    TryCloseInjects(created, w, ByChild);
    TryCloseKeepsTerminal(created, w, ByChild, w.parent);
    ParkRowsGood(evaluated, w.parent, deadline);
    assert ParkRows(evaluated, w.parent, deadline).jobs == evaluated.jobs;
  }

  lemma ParkTxEvaluates(db: Db, r: RunId, step: nat, out: StepOutcome, now: Time)
    requires out.Park? && WaitId(r, step, out.call) !in db.waits && ParkTx(db, r, step, out, now).Committed?
    ensures var w := WaitId(r, step, out.call);
            var wait := Wait(Open, out.members, now + out.timeout, out.policy, false, None);
            && CreateWaitRow(db, w, wait).Committed?
            && ParkTx(db, r, step, out, now).value == Evaluate(PutWait(db, w, wait), w, now + out.timeout)
  {
  }

  lemma CreatedGood(db: Db, w: WaitId, wait: Wait)
    requires Good(db, []) && w !in db.waits && CreateWaitRow(db, w, wait).Committed?
    requires wait.state.Open? && !wait.resumed && wait.result.None? && wait.members != []
    requires w.parent in db.runs && !IsTerminal(db, w.parent) && w.step < |db.runs[w.parent].steps|
    ensures var b := Evaluate(PutWait(db, w, wait), w, wait.deadline); Good(b, []) && Targets(db, b)
  {
    CreateWaitGood(db, w, wait);
    EvaluateGood(db, w, wait, wait.deadline);
  }

  lemma ParkTxGood(db: Db, r: RunId, step: nat, out: StepOutcome, now: Time)
    requires Good(db, []) && out.Park? && out.members != []
    requires r in db.runs && db.runs[r].state.Running? && step < |db.runs[r].steps|
    requires WaitId(r, step, out.call) !in db.waits
    requires ParkTx(db, r, step, out, now).Committed?
    ensures Good(ParkTx(db, r, step, out, now).value, [])
    ensures Targets(db, ParkTx(db, r, step, out, now).value)
  {
    var w := WaitId(r, step, out.call);
    var wait := Wait(Open, out.members, now + out.timeout, out.policy, false, None);
    ParkTxEvaluates(db, r, step, out, now);
    var b := Evaluate(PutWait(db, w, wait), w, wait.deadline);
    assert Good(b, []) && Targets(db, b) by { CreatedGood(db, w, wait); }
    assert ParkTx(db, r, step, out, now) == Committed(b);
  }

  lemma AskGood(db: Db, r: RunId)
    requires Good(db, []) && r in db.runs && !IsTerminal(db, r)
    ensures Good(Append(SetState(db, r, Awaiting, ""), RunAwaiting(r)), [])
  {
    PutRunEvolves(db, r, db.runs[r].(state := Awaiting, failure := ""));
    ResultsAppend(db.log, RunAwaiting(r));
    QuietGood(db, Append(SetState(db, r, Awaiting, ""), RunAwaiting(r)), []);
  }

  lemma ContinueGood(db: Db, r: RunId, step: nat)
    requires Good(db, [])
    ensures Good(EnqueueStep(db, StepJob(r, step, ByStep)), [])
    ensures Targets(db, EnqueueStep(db, StepJob(r, step, ByStep)))
  {
    ByWaitsAppend(db.jobs, StepJob(r, step, ByStep));
    QuietGood(db, EnqueueStep(db, StepJob(r, step, ByStep)), []);
  }

  lemma FinishTxGood(db: Db, r: RunId, text: string, order: seq<WaitId>)
    requires Good(db, []) && r in db.runs && !IsTerminal(db, r) && Lists(db, r, order)
    ensures Good(FinishTx(db, r, text, order), []) && Targets(db, FinishTx(db, r, text, order))
  {
    var run := db.runs[r].(state := Completed, failure := "", result := text);
    var b := Append(PutRun(db, r, run), RunCompleted(r));
    PutRunEvolves(db, r, run);
    ResultsAppend(db.log, RunCompleted(r));
    SettleGood(db, b, r, order);
  }

  /** The step being committed is new, so the wait it derives is new. */
  lemma FreshWait(db: Db, job: StepJob, call: string)
    requires Rows(db) && RunOrphans.RunsOk(db) && RunOrphans.JobOk(db, job)
    requires job.step !in db.runs[job.run].steps
    ensures WaitId(job.run, job.step, call) !in db.waits && job.step == |db.runs[job.run].steps|
  {
    assert RunOrphans.RunOk(db, job.run);
    RunOrphans.NextStepNumbered(db.runs[job.run].steps);
    forall w | w in db.waits ensures w.parent in db.runs && w.step < |db.runs[w.parent].steps| {
      assert RowOk(db, w, db.waits[w]);
    }
  }

  lemma ClassifyGood(db: Db, r: RunId, step: nat, out: StepOutcome, now: Time, order: seq<WaitId>)
    requires Good(db, []) && r in db.runs && db.runs[r].state.Running? && step < |db.runs[r].steps|
    requires out.Park? ==> out.members != [] && WaitId(r, step, out.call) !in db.waits
    requires Lists(db, r, order) && ClassifyTx(db, r, step, out, now, order).Committed?
    ensures Good(ClassifyTx(db, r, step, out, now, order).value, [])
    ensures Targets(db, ClassifyTx(db, r, step, out, now, order).value)
  {
    match out
    case Park(_, _, _, _) => ParkTxGood(db, r, step, out, now);
    case Ask => AskGood(db, r);
    case Continue => ContinueGood(db, r, step + 1);
    case Finish(text) => FinishTxGood(db, r, text, order);
  }

  lemma CommitTxGood(db: Db, job: StepJob, history: seq<Entry>, body: seq<string>, out: StepOutcome,
                     now: Time, order: seq<WaitId>)
    requires Good(db, []) && RunOrphans.RunsOk(db) && RunOrphans.JobOk(db, job)
    requires WellFormed(out) && Lists(db, job.run, order)
    requires CommitTx(db, job, history, body, out, now, order).Committed?
    ensures Good(CommitTx(db, job, history, body, out, now, order).value, [])
    ensures Targets(db, CommitTx(db, job, history, body, out, now, order).value)
  {
    if db.runs[job.run].cancelRequested {
      CancelTxGood(db, job.run, order);
    } else {
      var recorded := RecordStep(db, job, history, body);
      RecordStepGood(db, job, history, body);
      if out.Park? { FreshWait(db, job, out.call); }
      assert recorded.runs[job.run].steps == db.runs[job.run].steps + [job.step];
      FreshWait(db, job, "");
      ClassifyGood(recorded, job.run, job.step, out, now, order);
    }
  }

  // ---------------------------------------------------------------- the machine

  /** A sweeper only works on waits it claimed. */
  ghost predicate SweepersHold(s: State) {
    forall k, w {:trigger w in s.sweepers[k].todo} ::
      k in s.sweepers && s.sweepers[k].Resolving? && w in s.sweepers[k].todo ==>
        w in s.db.waits && s.db.waits[w].state.TimedOut?
  }

  ghost predicate Inv(s: State) {
    RunOrphans.Inv(s) && Good(s.db, []) && SweepersHold(s)
  }

  lemma ClaimDueGood(db: Db, due: seq<WaitId>)
    requires Good(db, []) && forall w :: w in due ==> IsOpen(db, w)
    ensures Good(ClaimDueTx(db, due), [])
  {
    var b := ClaimDueTx(db, due);
    forall w | w in db.waits && w in due ensures RowOk(b, w, b.waits[w]) {
      assert IsOpen(db, w) && RowOk(db, w, db.waits[w]);
    }
    assert Evolves(db, b) by {
      forall w | w in db.waits ensures w in b.waits && WaitEvolves(db.waits[w], b.waits[w]) {
        if w in due { assert IsOpen(db, w); }
      }
    }
    RowsStep(db, b);
    forall w | IsOpen(b, w) ensures IsOpen(db, w) && !IsTerminal(b, w.parent) && Hopeful(b, w) {
      assert IsOpen(db, w) && RowOk(db, w, db.waits[w]);
      HopefulStays(db, b, w);
    }
    OneOpenStep(db, b);
  }

  lemma StartTxGood(db: Db, r: RunId, prompt: string)
    requires Good(db, []) && StartTx(db, r, prompt).Committed?
    ensures Good(StartTx(db, r, prompt).value, []) && Targets(db, StartTx(db, r, prompt).value)
  {
    CreateRunGood(db, r, prompt, RunStarted(r, prompt));
    ByWaitsAppend(db.jobs, StepJob(r, 0, ByStart));
  }

  lemma SpawnTxGood(db: Db, parent: RunId, child: RunId, prompt: string)
    requires Good(db, []) && SpawnTx(db, parent, child, prompt).Committed?
    ensures Good(SpawnTx(db, parent, child, prompt).value, []) && Targets(db, SpawnTx(db, parent, child, prompt).value)
  {
    CreateRunGood(db, child, prompt, RunSpawned(parent, child, prompt));
    ByWaitsAppend(db.jobs, StepJob(child, 0, ByStart));
  }

  lemma ClaimStepGood(s: State, k: nat, job: nat, order: seq<WaitId>)
    requires Good(s.db, [])
    ensures Good(ClaimStep(s, k, job, order).db, []) && Targets(s.db, ClaimStep(s, k, job, order).db)
  {
    if job < |s.db.jobs| && Lists(s.db, s.db.jobs[job].run, order) { ClaimTxGood(s.db, s.db.jobs[job], order); }
  }

  lemma CommitStepGood(s: State, k: nat, body: seq<string>, out: StepOutcome, order: seq<WaitId>)
    requires Inv(s)
    ensures Good(CommitStep(s, k, body, out, order).db, []) && Targets(s.db, CommitStep(s, k, body, out, order).db)
  {
    if Executes(s, k) && WellFormed(out) && Lists(s.db, JobOf(s, k).run, order) {
      assert RunOrphans.JobOk(s.db, s.db.jobs[s.workers[k].job]);
      if CommitTx(s.db, JobOf(s, k), s.workers[k].history, body, out, s.now, order).Committed? {
        CommitTxGood(s.db, JobOf(s, k), s.workers[k].history, body, out, s.now, order);
      }
    }
  }

  lemma StopStepsGood(s: State, k: nat, reason: string, order: seq<WaitId>)
    requires Good(s.db, [])
    ensures Good(FailStep(s, k, reason, order).db, []) && Targets(s.db, FailStep(s, k, reason, order).db)
    ensures Good(StreamCancelStep(s, k, order).db, []) && Targets(s.db, StreamCancelStep(s, k, order).db)
  {
    if Executes(s, k) && Lists(s.db, JobOf(s, k).run, order) {
      FailTxGood(s.db, JobOf(s, k).run, reason, order);
      if JobOf(s, k).run in s.db.runs { CancelTxGood(s.db, JobOf(s, k).run, order); }
    }
  }

  lemma SweepClaimStepGood(c: Config, s: State, k: nat, job: nat, due: seq<WaitId>, locked: set<WaitId>)
    requires Good(s.db, [])
    ensures Good(SweepClaimStep(c, s, k, job, due, locked).db, [])
    ensures Targets(s.db, SweepClaimStep(c, s, k, job, due, locked).db)
  {
    if IsBatch(s.db, s.now, c.batch, due, locked) {
      forall w | w in due ensures IsOpen(s.db, w) { assert Due(s.db, w, s.now); }
      ClaimDueGood(s.db, due);
    }
  }

  lemma SweepResolveStepGood(s: State, k: nat)
    requires Good(s.db, []) && SweepersHold(s)
    ensures Good(SweepResolveStep(s, k).db, []) && Targets(s.db, SweepResolveStep(s, k).db)
  {
    if k in s.sweepers && s.sweepers[k].Resolving? && s.sweepers[k].todo != [] {
      var w := s.sweepers[k].todo[0];
      assert w in s.sweepers[k].todo;
      TryCloseGood(s.db, w, ByDeadline, [], []);
      TryCloseInjects(s.db, w, ByDeadline);
    }
  }

  lemma ApiGood(s: State, a: ApiAction)
    requires Good(s.db, [])
    ensures Good(ApiStep(s, a).db, []) && Targets(s.db, ApiStep(s, a).db)
  {
    match a
    case Start(r, prompt) => if StartTx(s.db, r, prompt).Committed? { StartTxGood(s.db, r, prompt); }
    case AnswerRun(r, text) => AnswerTxGood(s.db, r, text);
    case CancelRun(r) => CancelRequestTxGood(s.db, r);
    case ExpireRun(r) => ExpireTxGood(s.db, r);
  }

  lemma WorkGood(s: State, a: WorkAction)
    requires Inv(s)
    ensures Good(WorkStep(s, a).db, []) && Targets(s.db, WorkStep(s, a).db)
  {
    match a
    case Claim(k, job, order) => ClaimStepGood(s, k, job, order);
    case Spawn(k, child, prompt) =>
      if Executes(s, k) && SpawnTx(s.db, JobOf(s, k).run, child, prompt).Committed? {
        SpawnTxGood(s.db, JobOf(s, k).run, child, prompt);
      }
    case Commit(k, body, out, order) => CommitStepGood(s, k, body, out, order);
    case Fail(k, reason, order) => StopStepsGood(s, k, reason, order);
    case StreamCancel(k, order) => StopStepsGood(s, k, "", order);
    case _ =>
      WorkEvolves(s, a);
      QuietGood(s.db, WorkStep(s, a).db, []);
  }

  lemma SweepGood(c: Config, s: State, a: SweepAction)
    requires Good(s.db, []) && SweepersHold(s)
    ensures Good(SweepStep(c, s, a).db, []) && Targets(s.db, SweepStep(c, s, a).db)
  {
    match a
    case SweepClaim(k, job, due, locked) => SweepClaimStepGood(c, s, k, job, due, locked);
    case SweepResolve(k) => SweepResolveStepGood(s, k);
    case _ =>
      SweepEvolves(c, s, a);
      QuietGood(s.db, SweepStep(c, s, a).db, []);
  }

  /** The tables stay good at every step, and only parents that are not terminal are resumed. */
  lemma NextGood(c: Config, s: State, a: Action)
    requires Inv(s)
    ensures Good(Next(c, s, a).db, []) && Targets(s.db, Next(c, s, a).db)
  {
    match a
    case Api(x) => ApiGood(s, x);
    case Work(x) => WorkGood(s, x);
    case Sweep(x) => SweepGood(c, s, x);
    case Tick(_) =>
  }

  lemma SweepersRest(c: Config, s: State, a: Action)
    requires !a.Sweep?
    ensures Next(c, s, a).sweepers == s.sweepers
  {
  }

  /** A sweeper got each wait it holds by claiming it. */
  lemma HeldBefore(c: Config, s: State, a: Action, k: nat, w: WaitId)
    requires var t := Next(c, s, a); k in t.sweepers && t.sweepers[k].Resolving? && w in t.sweepers[k].todo
    ensures || (k in s.sweepers && s.sweepers[k].Resolving? && w in s.sweepers[k].todo)
            || (w in Next(c, s, a).db.waits && Next(c, s, a).db.waits[w].state.TimedOut?)
  {
    if !a.Sweep? { SweepersRest(c, s, a); }
  }

  /** A wait a sweeper holds was claimed by it and stays timed out. */
  lemma NextSweepersHold(c: Config, s: State, a: Action)
    requires SweepersHold(s)
    ensures SweepersHold(Next(c, s, a))
  {
    var t := Next(c, s, a);
    NextEvolves(c, s, a);
    forall k, w | k in t.sweepers && t.sweepers[k].Resolving? && w in t.sweepers[k].todo
      ensures w in t.db.waits && t.db.waits[w].state.TimedOut?
    {
      HeldBefore(c, s, a, k, w);
      if k in s.sweepers && s.sweepers[k].Resolving? && w in s.sweepers[k].todo {
        assert WaitEvolves(s.db.waits[w], t.db.waits[w]);
      }
    }
  }

  lemma {:induction false} ExecInv(c: Config, acts: seq<Action>)
    ensures Inv(Exec(c, acts))
    decreases |acts|
  {
    RunOrphans.ExecInv(c, acts);
    if acts != [] {
      var s := Exec(c, acts[..|acts| - 1]);
      ExecInv(c, acts[..|acts| - 1]);
      NextGood(c, s, acts[|acts| - 1]);
      NextSweepersHold(c, s, acts[|acts| - 1]);
    }
  }
}

/**
  A run's message history against its event log.  The history row is rewritten
  at commit from the copy the worker took when it claimed the step; the log is
  only appended to.  Replaying the log gives back the history of every run that
  was never answered past an unresumed wait.
 */
module RunHistory {
  import opened Options
  import opened RunTables
  import opened RunMachine
  import opened RunEvolution
  import RunOrphans
  import RunWaits

  /** What one event contributes to the history of run r. */
  function Contribution(e: Event, r: RunId): seq<Entry> {
    match e
    case RunStarted(q, prompt) => if q == r then [Prompt(prompt)] else []
    case RunSpawned(_, q, prompt) => if q == r then [Prompt(prompt)] else []
    case StepFinished(q, step, body) => if q == r then [Turn(step, body)] else []
    case UserMessage(q, text, _) => if q == r then [Answer(text)] else []
    case ToolResulted(w, o, isError) => if w.parent == r then [ToolResult(w, o, isError)] else []
    case _ => []
  }

  function Replay(log: seq<Event>, r: RunId): seq<Entry> {
    if log == [] then [] else Replay(log[..|log| - 1], r) + Contribution(log[|log| - 1], r)
  }

  lemma ReplayAppend(log: seq<Event>, e: Event, r: RunId)
    ensures Replay(log + [e], r) == Replay(log, r) + Contribution(e, r)
  {
    assert (log + [e])[..|log|] == log;
  }

  /** The step indices of the turns in a history, in order. */
  function TurnSteps(h: seq<Entry>): seq<nat> {
    if h == [] then [] else
    TurnSteps(h[..|h| - 1]) + if h[|h| - 1].Turn? then [h[|h| - 1].step] else []
  }

  lemma {:induction false} TurnStepsConcat(h: seq<Entry>, d: seq<Entry>)
    ensures TurnSteps(h + d) == TurnSteps(h) + TurnSteps(d)
    decreases |d|
  {
    if d == [] {
      assert h + d == h;
    } else {
      assert (h + d)[..|h + d| - 1] == h + d[..|d| - 1];
      TurnStepsConcat(h, d[..|d| - 1]);
    }
  }

  /** No answer reached r while one of its waits was still unresumed. */
  predicate Clean(log: seq<Event>, r: RunId) {
    forall i :: 0 <= i < |log| ==> !(log[i].UserMessage? && log[i].run == r && log[i].bypassed)
  }

  lemma CleanAppend(log: seq<Event>, e: Event, r: RunId)
    requires Clean(log + [e], r)
    ensures Clean(log, r) && !(e.UserMessage? && e.run == r && e.bypassed)
  {
    forall i | 0 <= i < |log| ensures !(log[i].UserMessage? && log[i].run == r && log[i].bypassed) {
      assert (log + [e])[i] == log[i];
    }
    assert (log + [e])[|log|] == e;
  }

  predicate Unresumed(db: Db, w: WaitId) {
    w in db.waits && !db.waits[w].resumed
  }

  ghost predicate NoUnresumed(db: Db, r: RunId) {
    forall w: WaitId {:trigger Unresumed(db, w)} :: w.parent == r ==> !Unresumed(db, w)
  }

  ghost predicate OneUnresumed(db: Db, r: RunId) {
    forall v: WaitId, w: WaitId {:trigger Unresumed(db, v), Unresumed(db, w)} ::
      v.parent == r && w.parent == r && Unresumed(db, v) && Unresumed(db, w) ==> v == w
  }

  /** The log agrees with run r's rows, and with its history if r was only answered in turn. */
  ghost predicate Told(db: Db, r: RunId) {
    if r !in db.runs then Replay(db.log, r) == [] else
    && TurnSteps(Replay(db.log, r)) == db.runs[r].steps
    && (Clean(db.log, r) ==>
          && db.runs[r].history == Replay(db.log, r)
          && OneUnresumed(db, r)
          && (db.runs[r].state.Active() ==> NoUnresumed(db, r)))
  }

  // ---------------------------------------------------------------- one event at a time

  /** b has no unresumed wait of r beyond those of a, and r is active in b only if that is sound. */
  ghost predicate NoNewParking(a: Db, b: Db, r: RunId) {
    && r in a.runs && r in b.runs
    && (forall w: WaitId {:trigger Unresumed(b, w)} :: w.parent == r && Unresumed(b, w) ==> Unresumed(a, w))
    && (b.runs[r].state.Active() ==> a.runs[r].state.Active() || NoUnresumed(b, r))
  }

  lemma NoNewParkingKeeps(a: Db, b: Db, r: RunId)
    requires NoNewParking(a, b, r) && OneUnresumed(a, r) && (a.runs[r].state.Active() ==> NoUnresumed(a, r))
    ensures OneUnresumed(b, r) && (b.runs[r].state.Active() ==> NoUnresumed(b, r))
  {
  }

  lemma ToldStep(a: Db, b: Db, e: Event, r: RunId)
    requires Told(a, r) && b.log == a.log + [e] && (r in b.runs <==> r in a.runs)
    requires r !in a.runs ==> Contribution(e, r) == []
    requires r in a.runs ==> b.runs[r].steps == a.runs[r].steps + TurnSteps(Contribution(e, r))
    requires r in a.runs && Clean(b.log, r) ==>
               NoNewParking(a, b, r) && b.runs[r].history == a.runs[r].history + Contribution(e, r)
    ensures Told(b, r)
  {
    ReplayAppend(a.log, e, r);
    TurnStepsConcat(Replay(a.log, r), Contribution(e, r));
    if r in a.runs && Clean(b.log, r) {
      CleanAppend(a.log, e, r);
      NoNewParkingKeeps(a, b, r);
    }
  }

  lemma ToldSame(a: Db, b: Db, r: RunId)
    requires Told(a, r) && b.log == a.log && (r in b.runs <==> r in a.runs)
    requires r in a.runs ==> b.runs[r].history == a.runs[r].history && b.runs[r].steps == a.runs[r].steps
    requires r in a.runs ==> NoNewParking(a, b, r)
    ensures Told(b, r)
  {
    if r in a.runs && Clean(b.log, r) { NoNewParkingKeeps(a, b, r); }
  }

  // ---------------------------------------------------------------- closing waits

  lemma TryCloseHistory(db: Db, w: WaitId, reason: CloseReason, r: RunId)
    requires r in db.runs
    ensures var b := TryClose(db, w, reason);
            && r in b.runs && b.runs[r].steps == db.runs[r].steps
            && (if Closable(db, w, reason) && Resumes(db, w) && r == w.parent
                then exists o, isError ::
                       && b.runs[r].history == db.runs[r].history + [ToolResult(w, o, isError)]
                       && b.runs[r].state.Running?
                else b.runs[r] == db.runs[r])
  {
    if Closable(db, w, reason) && Resumes(db, w) && r == w.parent {
      var o := Settlement(db, db.waits[w], reason);
      assert TryClose(db, w, reason).runs[r].history
          == db.runs[r].history + [ToolResult(w, o, ResultIsError(db.waits[w], o))];
    }
  }

  /** Closing a wait never adds an unresumed one; resuming uses up its own. */
  lemma TryCloseUnresumed(db: Db, w: WaitId, reason: CloseReason, v: WaitId)
    requires Unresumed(TryClose(db, w, reason), v)
    ensures Unresumed(db, v) && (v == w ==> !Closable(db, w, reason))
  {
    if Closable(db, w, reason) { RunWaits.TryCloseShape(db, w, reason); }
  }

  /** A parent just resumed holds no further unresumed wait. */
  lemma TryCloseParking(db: Db, w: WaitId, reason: CloseReason, r: RunId)
    requires r in db.runs && OneUnresumed(db, r)
    ensures NoNewParking(db, TryClose(db, w, reason), r)
  {
    var b := TryClose(db, w, reason);
    TryCloseHistory(db, w, reason, r);
    forall v: WaitId | v.parent == r && Unresumed(b, v)
      ensures Unresumed(db, v) && (b.runs[r] == db.runs[r] || v != w)
    {
      TryCloseUnresumed(db, w, reason, v);
    }
    if b.runs[r] != db.runs[r] { assert Unresumed(db, w); }
  }

  lemma ResumeTold(db: Db, w: WaitId, reason: CloseReason, r: RunId)
    requires Told(db, r) && Closable(db, w, reason) && Resumes(db, w)
    ensures Told(TryClose(db, w, reason), r)
  {
    RunWaits.TryCloseShape(db, w, reason);
    var b := TryClose(db, w, reason);
    var e := b.log[|db.log|];
    if r in db.runs && Clean(b.log, r) {
      CleanAppend(db.log, e, r);
      TryCloseParking(db, w, reason, r);
    }
    ToldStep(db, b, e, r);
  }

  lemma TryCloseTold(db: Db, w: WaitId, reason: CloseReason, r: RunId)
    requires Told(db, r)
    ensures Told(TryClose(db, w, reason), r)
  {
    var b := TryClose(db, w, reason);
    if Closable(db, w, reason) {
      RunWaits.TryCloseShape(db, w, reason);
      if Resumes(db, w) {
        ResumeTold(db, w, reason, r);
      } else if r in db.runs && Clean(db.log, r) {
        TryCloseParking(db, w, reason, r);
        ToldSame(db, b, r);
      }
    }
  }

  lemma {:induction false} ResolveAllTold(db: Db, ws: seq<WaitId>, r: RunId)
    requires Told(db, r)
    ensures Told(ResolveAll(db, ws), r)
    decreases |ws|
  {
    if ws != [] {
      TryCloseTold(db, ws[0], ByChild, r);
      ResolveAllTold(TryClose(db, ws[0], ByChild), ws[1..], r);
    }
  }

  lemma SettleTold(db: Db, q: RunId, order: seq<WaitId>, r: RunId)
    requires Told(db, r)
    ensures Told(Settle(db, q, order), r)
  {
    var b := Abandon(db, q);
    forall v: WaitId | Unresumed(b, v) ensures Unresumed(db, v) {
    }
    ToldSame(db, b, r);
    ResolveAllTold(b, order, r);
  }

  // ---------------------------------------------------------------- transactions

  /** A state change that does not wake the run, together with an event that says nothing. */
  lemma QuietTold(db: Db, q: RunId, run: Run, e: Event, r: RunId)
    requires Told(db, r) && q in db.runs && Contribution(e, r) == []
    requires run.history == db.runs[q].history && run.steps == db.runs[q].steps && !run.state.Active()
    ensures Told(Append(PutRun(db, q, run), e), r)
  {
    var b := Append(PutRun(db, q, run), e);
    forall v: WaitId | Unresumed(b, v) ensures Unresumed(db, v) {
    }
    ToldStep(db, b, e, r);
  }

  lemma StopTold(db: Db, q: RunId, reason: string, text: string, order: seq<WaitId>, r: RunId)
    requires Told(db, r) && q in db.runs
    ensures Told(CancelTx(db, q, order), r) && Told(FailTx(db, q, reason, order), r)
    ensures Told(FinishTx(db, q, text, order), r)
  {
    QuietTold(db, q, db.runs[q].(state := Cancelled, failure := ""), RunCancelled(q, true), r);
    QuietTold(db, q, db.runs[q].(state := Failed, failure := reason), RunFailed(q), r);
    QuietTold(db, q, db.runs[q].(state := Completed, failure := "", result := text), RunCompleted(q), r);
    SettleTold(Append(SetState(db, q, Cancelled, ""), RunCancelled(q, true)), q, order, r);
    SettleTold(Append(SetState(db, q, Failed, reason), RunFailed(q)), q, order, r);
    SettleTold(Append(PutRun(db, q, db.runs[q].(state := Completed, failure := "", result := text)), RunCompleted(q)),
               q, order, r);
  }

  /** A state change of an active run that stays active, without an event. */
  lemma ActiveTold(db: Db, q: RunId, run: Run, r: RunId)
    requires Told(db, r) && q in db.runs && db.runs[q].state.Active()
    requires run.history == db.runs[q].history && run.steps == db.runs[q].steps
    ensures Told(PutRun(db, q, run), r)
  {
    var b := PutRun(db, q, run);
    forall v: WaitId | Unresumed(b, v) ensures Unresumed(db, v) {
    }
    ToldSame(db, b, r);
  }

  lemma ClaimTxTold(db: Db, job: StepJob, order: seq<WaitId>, r: RunId)
    requires Told(db, r)
    ensures Told(ClaimTx(db, job, order).db, r)
  {
    if job.run in db.runs {
      StopTold(db, job.run, "", "", order, r);
      if db.runs[job.run].state.Pending? {
        ActiveTold(db, job.run, db.runs[job.run].(state := Running, failure := ""), r);
      }
    }
  }

  lemma HandlerCancelTold(db: Db, q: RunId, failure: string, r: RunId)
    requires Told(db, r) && q in db.runs
    ensures var run := db.runs[q].(cancelRequested := true, state := Cancelled, failure := failure);
            Told(Abandon(Append(PutRun(db, q, run), RunCancelled(q, false)), q), r)
  {
    var run := db.runs[q].(cancelRequested := true, state := Cancelled, failure := failure);
    QuietTold(db, q, run, RunCancelled(q, false), r);
    SettleTold(Append(PutRun(db, q, run), RunCancelled(q, false)), q, [], r);
  }

  lemma CancelRequestTxTold(db: Db, q: RunId, r: RunId)
    requires Told(db, r) && CancelRequestTx(db, q).Committed?
    ensures Told(CancelRequestTx(db, q).value, r)
  {
    if db.runs[q].state.Active() {
      ActiveTold(db, q, db.runs[q].(cancelRequested := true), r);
    } else {
      HandlerCancelTold(db, q, "", r);
      var cancelled := db.runs[q].(cancelRequested := true, state := Cancelled, failure := "");
      assert CancelRequestTx(db, q).value == Abandon(Append(PutRun(db, q, cancelled), RunCancelled(q, false)), q);
    }
  }

  lemma ExpireTxTold(db: Db, q: RunId, r: RunId)
    requires Told(db, r) && ExpireTx(db, q).Committed?
    ensures Told(ExpireTx(db, q).value, r)
  {
    HandlerCancelTold(db, q, "expired", r);
    var expired := db.runs[q].(cancelRequested := true, state := Cancelled, failure := "expired");
    assert ExpireTx(db, q).value == Abandon(Append(PutRun(db, q, expired), RunCancelled(q, false)), q);
  }

  lemma AnswerTxTold(db: Db, q: RunId, text: string, r: RunId)
    requires Told(db, r) && AnswerTx(db, q, text).Committed?
    ensures Told(AnswerTx(db, q, text).value, r)
  {
    var b := AnswerTx(db, q, text).value;
    var e := UserMessage(q, text, HoldsUnresumedWait(db, q));
    forall v: WaitId | Unresumed(b, v) ensures Unresumed(db, v) {
    }
    if r == q && Clean(b.log, r) {
      CleanAppend(db.log, e, r);
      assert NoUnresumed(b, r);
    }
    ToldStep(db, b, e, r);
  }

  lemma NewHasNoWaits(db: Db, q: RunId)
    requires q !in db.runs && RunWaits.Rows(db)
    ensures forall v: WaitId :: v in db.waits ==> v.parent != q
  {
    forall v: WaitId | v in db.waits ensures v.parent != q {
      assert RunWaits.RowOk(db, v, db.waits[v]);
    }
  }

  lemma NewTold(db: Db, q: RunId, prompt: string, e: Event)
    requires Told(db, q) && q !in db.runs && forall v: WaitId :: v in db.waits ==> v.parent != q
    requires e == RunStarted(q, prompt) || (e.RunSpawned? && e.child == q && e.prompt == prompt)
    ensures Told(EnqueueStep(Append(PutRun(db, q, NewRun(prompt)), e), StepJob(q, 0, ByStart)), q)
  {
    var b := EnqueueStep(Append(PutRun(db, q, NewRun(prompt)), e), StepJob(q, 0, ByStart));
    ReplayAppend(db.log, e, q);
    assert Replay(b.log, q) == [Prompt(prompt)];
    assert TurnSteps([Prompt(prompt)]) == [];
  }

  lemma CreateTold(db: Db, q: RunId, prompt: string, e: Event, r: RunId)
    requires Told(db, r) && q !in db.runs && RunWaits.Rows(db)
    requires e == RunStarted(q, prompt) || (e.RunSpawned? && e.child == q && e.prompt == prompt)
    ensures Told(EnqueueStep(Append(PutRun(db, q, NewRun(prompt)), e), StepJob(q, 0, ByStart)), r)
  {
    if r == q {
      NewHasNoWaits(db, q);
      NewTold(db, q, prompt, e);
    } else {
      var b := EnqueueStep(Append(PutRun(db, q, NewRun(prompt)), e), StepJob(q, 0, ByStart));
      forall v: WaitId | Unresumed(b, v) ensures Unresumed(db, v) {
      }
      ToldStep(db, b, e, r);
    }
  }

  // ---------------------------------------------------------------- committing a step

  /** The history written at commit is the current one, unless an answer bypassed a wait. */
  lemma RecordTold(db: Db, job: StepJob, history: seq<Entry>, body: seq<string>, r: RunId)
    requires Told(db, r) && job.run in db.runs && db.runs[job.run].state.Running?
    requires Clean(db.log, job.run) ==> history == db.runs[job.run].history
    ensures Told(RecordStep(db, job, history, body), r)
  {
    var b := RecordStep(db, job, history, body);
    var e := StepFinished(job.run, job.step, body);
    forall v: WaitId | Unresumed(b, v) ensures Unresumed(db, v) {
    }
    assert TurnSteps([Turn(job.step, body)]) == [job.step];
    if Clean(b.log, r) { CleanAppend(db.log, e, r); }
    ToldStep(db, b, e, r);
  }

  lemma ParkedTold(db: Db, w: WaitId, wait: Wait, r: RunId)
    requires Told(db, r) && w !in db.waits && w.parent in db.runs && db.runs[w.parent].state.Running?
    ensures Told(ParkRows(PutWait(db, w, wait), w.parent, wait.deadline), r)
  {
    var b := ParkRows(PutWait(db, w, wait), w.parent, wait.deadline);
    var e := RunAwaiting(w.parent);
    forall v: WaitId | Unresumed(b, v) ensures Unresumed(db, v) || v == w {
    }
    if r != w.parent {
      ToldStep(db, b, e, r);
    } else {
      ReplayAppend(db.log, e, r);
      assert Replay(b.log, r) == Replay(db.log, r);
      if Clean(b.log, r) {
        CleanAppend(db.log, e, r);
        assert NoUnresumed(db, r);
      }
    }
  }

  lemma ResumedTold(db: Db, w: WaitId, wait: Wait, r: RunId)
    requires Told(db, r) && w !in db.waits && w.parent in db.runs && db.runs[w.parent].state.Running?
    requires var created := PutWait(db, w, wait); Closable(created, w, ByChild) && Resumes(created, w)
    ensures Told(TryClose(PutWait(db, w, wait), w, ByChild), r)
  {
    var created := PutWait(db, w, wait);
    var b := TryClose(created, w, ByChild);
    RunWaits.TryCloseShape(created, w, ByChild);
    forall v: WaitId | Unresumed(b, v) ensures Unresumed(db, v) {
      TryCloseUnresumed(created, w, ByChild, v);
    }
    if r in db.runs { TryCloseHistory(created, w, ByChild, r); }
    ToldStep(db, b, b.log[|db.log|], r);
  }

  /** A wait nobody can close yet leaves the tables as they were. */
  lemma ParkTxCases(db: Db, r: RunId, step: nat, out: StepOutcome, now: Time)
    requires out.Park? && r in db.runs && db.runs[r].state.Running?
    requires WaitId(r, step, out.call) !in db.waits && ParkTx(db, r, step, out, now).Committed?
    ensures var w := WaitId(r, step, out.call);
            var wait := Wait(Open, out.members, now + out.timeout, out.policy, false, None);
            var created := PutWait(db, w, wait);
            if Closable(created, w, ByChild) && Resumes(created, w)
            then ParkTx(db, r, step, out, now).value == TryClose(created, w, ByChild)
            else ParkTx(db, r, step, out, now).value == ParkRows(created, r, wait.deadline)
  {
  }

  lemma ParkTxTold(db: Db, q: RunId, step: nat, out: StepOutcome, now: Time, r: RunId)
    requires Told(db, r) && out.Park? && q in db.runs && db.runs[q].state.Running?
    requires WaitId(q, step, out.call) !in db.waits && ParkTx(db, q, step, out, now).Committed?
    ensures Told(ParkTx(db, q, step, out, now).value, r)
  {
    var w := WaitId(q, step, out.call);
    var wait := Wait(Open, out.members, now + out.timeout, out.policy, false, None);
    ParkTxCases(db, q, step, out, now);
    if Closable(PutWait(db, w, wait), w, ByChild) && Resumes(PutWait(db, w, wait), w) {
      ResumedTold(db, w, wait, r);
    } else {
      ParkedTold(db, w, wait, r);
    }
  }

  lemma ContinueTold(db: Db, job: StepJob, r: RunId)
    requires Told(db, r)
    ensures Told(EnqueueStep(db, job), r)
  {
    forall v: WaitId | Unresumed(EnqueueStep(db, job), v) ensures Unresumed(db, v) {
    }
    ToldSame(db, EnqueueStep(db, job), r);
  }

  lemma ClassifyTold(db: Db, q: RunId, step: nat, out: StepOutcome, now: Time, order: seq<WaitId>, r: RunId)
    requires Told(db, r) && q in db.runs && db.runs[q].state.Running?
    requires out.Park? ==> WaitId(q, step, out.call) !in db.waits
    requires ClassifyTx(db, q, step, out, now, order).Committed?
    ensures Told(ClassifyTx(db, q, step, out, now, order).value, r)
  {
    match out
    case Park(_, _, _, _) => ParkTxTold(db, q, step, out, now, r);
    case Ask => QuietTold(db, q, db.runs[q].(state := Awaiting, failure := ""), RunAwaiting(q), r);
    case Continue => ContinueTold(db, StepJob(q, step + 1, ByStep), r);
    case Finish(text) => StopTold(db, q, "", text, order, r);
  }

  // ---------------------------------------------------------------- what a worker's copy misses

  predicate OnlyResults(h: seq<Entry>) {
    forall i :: 0 <= i < |h| ==> h[i].ToolResult?
  }

  /** b's history of r is a's plus wait outcomes, and plus nothing if no wait was outstanding. */
  ghost predicate Grown(a: Db, b: Db, r: RunId) {
    && r in a.runs && r in b.runs
    && a.runs[r].history <= b.runs[r].history
    && OnlyResults(b.runs[r].history[|a.runs[r].history|..])
    && (NoUnresumed(a, r) ==> b.runs[r].history == a.runs[r].history && NoUnresumed(b, r))
  }

  lemma GrownTransitive(a: Db, b: Db, c: Db, r: RunId)
    requires Grown(a, b, r) && Grown(b, c, r)
    ensures Grown(a, c, r)
  {
    var x, y, z := a.runs[r].history, b.runs[r].history, c.runs[r].history;
    assert z[|x|..] == y[|x|..] + z[|y|..];
  }

  lemma SameGrown(a: Db, b: Db, r: RunId)
    requires r in a.runs && r in b.runs && b.runs[r].history == a.runs[r].history
    requires forall w: WaitId {:trigger Unresumed(b, w)} :: w.parent == r && Unresumed(b, w) ==> Unresumed(a, w)
    ensures Grown(a, b, r)
  {
  }

  lemma TryCloseGrown(db: Db, w: WaitId, reason: CloseReason, r: RunId)
    requires r in db.runs
    ensures Grown(db, TryClose(db, w, reason), r)
  {
    var b := TryClose(db, w, reason);
    TryCloseHistory(db, w, reason, r);
    forall v: WaitId | v.parent == r && Unresumed(b, v) ensures Unresumed(db, v) {
      TryCloseUnresumed(db, w, reason, v);
    }
    if NoUnresumed(db, r) && w in db.waits && w.parent == r { assert !Unresumed(db, w); }
  }

  lemma {:induction false} ResolveAllGrown(db: Db, ws: seq<WaitId>, r: RunId)
    requires r in db.runs
    ensures Grown(db, ResolveAll(db, ws), r)
    decreases |ws|
  {
    if ws == [] {
      SameGrown(db, db, r);
    } else {
      var b := TryClose(db, ws[0], ByChild);
      TryCloseGrown(db, ws[0], ByChild, r);
      ResolveAllGrown(b, ws[1..], r);
      GrownTransitive(db, b, ResolveAll(b, ws[1..]), r);
    }
  }

  /** b is a with rows of some other run and events changed, and then that run's waits settled. */
  lemma SettleGrown(a: Db, b: Db, q: RunId, order: seq<WaitId>, r: RunId)
    requires r in a.runs && r in b.runs && b.runs[r] == a.runs[r] && b.waits == a.waits
    ensures Grown(a, Settle(b, q, order), r)
  {
    var d := Abandon(b, q);
    forall w: WaitId | w.parent == r && Unresumed(d, w) ensures Unresumed(a, w) {
    }
    SameGrown(a, d, r);
    ResolveAllGrown(d, order, r);
    GrownTransitive(a, d, Settle(b, q, order), r);
  }

  lemma StopGrown(db: Db, q: RunId, reason: string, text: string, order: seq<WaitId>, r: RunId)
    requires r in db.runs && q in db.runs && r != q
    ensures Grown(db, CancelTx(db, q, order), r) && Grown(db, FailTx(db, q, reason, order), r)
  {
    SameGrown(db, db, r);
    SettleGrown(db, Append(SetState(db, q, Cancelled, ""), RunCancelled(q, true)), q, order, r);
    SettleGrown(db, Append(SetState(db, q, Failed, reason), RunFailed(q)), q, order, r);
  }

  lemma CommitGrown(db: Db, job: StepJob, history: seq<Entry>, body: seq<string>, out: StepOutcome,
                    now: Time, order: seq<WaitId>, r: RunId)
    requires r in db.runs && r != job.run && CommitTx(db, job, history, body, out, now, order).Committed?
    requires out.Park? ==> WaitId(job.run, job.step, out.call) !in db.waits
    ensures Grown(db, CommitTx(db, job, history, body, out, now, order).value, r)
  {
    var b := CommitTx(db, job, history, body, out, now, order).value;
    if db.runs[job.run].cancelRequested {
      StopGrown(db, job.run, "", "", order, r);
    } else {
      var recorded := RecordStep(db, job, history, body);
      match out
      case Park(call, members, timeout, policy) =>
        var w := WaitId(job.run, job.step, call);
        var wait := Wait(Open, members, now + timeout, policy, false, None);
        ParkTxCases(recorded, job.run, job.step, out, now);
        TryCloseHistory(PutWait(recorded, w, wait), w, ByChild, r);
        forall v: WaitId | v.parent == r && Unresumed(b, v) ensures Unresumed(db, v) {
          if Unresumed(TryClose(PutWait(recorded, w, wait), w, ByChild), v) {
            TryCloseUnresumed(PutWait(recorded, w, wait), w, ByChild, v);
          }
        }
        SameGrown(db, b, r);
      case Ask => SameGrown(db, b, r);
      case Continue => SameGrown(db, b, r);
      case Finish(text) =>
        var run := recorded.runs[job.run].(state := Completed, failure := "", result := text);
        SettleGrown(db, Append(PutRun(recorded, job.run, run), RunCompleted(job.run)), job.run, order, r);
    }
  }

  // ---------------------------------------------------------------- the machine

  /**
    A worker that may still commit holds a prefix of its run's history; what it
    misses are wait outcomes only, and nothing if the run was answered in turn.
   */
  ghost predicate CopyOk(db: Db, w: Worker) {
    w.Executing? && w.job < |db.jobs| && db.jobs[w.job].run in db.runs ==>
      var job := db.jobs[w.job];
      var run := db.runs[job.run];
      run.state.Running? && job.step == |run.steps| ==>
        && w.history <= run.history
        && OnlyResults(run.history[|w.history|..])
        && (Clean(db.log, job.run) ==> w.history == run.history)
  }

  ghost predicate Inv(s: State) {
    && RunWaits.Inv(s)
    && (forall r {:trigger Told(s.db, r)} :: Told(s.db, r))
    && (forall k {:trigger CopyOk(s.db, s.workers[k])} :: k in s.workers ==> CopyOk(s.db, s.workers[k]))
  }

  lemma ApiTold(s: State, a: ApiAction, r: RunId)
    requires Told(s.db, r) && RunWaits.Rows(s.db)
    ensures Told(ApiStep(s, a).db, r)
  {
    match a
    case Start(q, prompt) => if q !in s.db.runs { CreateTold(s.db, q, prompt, RunStarted(q, prompt), r); }
    case AnswerRun(q, text) => if AnswerTx(s.db, q, text).Committed? { AnswerTxTold(s.db, q, text, r); }
    case CancelRun(q) => if CancelRequestTx(s.db, q).Committed? { CancelRequestTxTold(s.db, q, r); }
    case ExpireRun(q) => if ExpireTx(s.db, q).Committed? { ExpireTxTold(s.db, q, r); }
  }

  lemma CommitTold(s: State, k: nat, body: seq<string>, out: StepOutcome, order: seq<WaitId>, r: RunId)
    requires Inv(s) && Executes(s, k)
    requires CommitTx(s.db, JobOf(s, k), s.workers[k].history, body, out, s.now, order).Committed?
    ensures Told(CommitTx(s.db, JobOf(s, k), s.workers[k].history, body, out, s.now, order).value, r)
  {
    var job, history := JobOf(s, k), s.workers[k].history;
    assert Told(s.db, r) && CopyOk(s.db, s.workers[k]) && RunOrphans.JobOk(s.db, s.db.jobs[s.workers[k].job]);
    if s.db.runs[job.run].cancelRequested {
      StopTold(s.db, job.run, "", "", order, r);
    } else {
      RunWaits.FreshWait(s.db, job, if out.Park? then out.call else "");
      RecordTold(s.db, job, history, body, r);
      ClassifyTold(RecordStep(s.db, job, history, body), job.run, job.step, out, s.now, order, r);
    }
  }

  lemma WorkTold(s: State, a: WorkAction, r: RunId)
    requires Inv(s)
    ensures Told(WorkStep(s, a).db, r)
  {
    assert Told(s.db, r);
    match a
    case Claim(k, job, order) => if job < |s.db.jobs| { ClaimTxTold(s.db, s.db.jobs[job], order, r); }
    case Spawn(k, child, prompt) =>
      if Executes(s, k) && child !in s.db.runs {
        CreateTold(s.db, child, prompt, RunSpawned(JobOf(s, k).run, child, prompt), r);
      }
    case Commit(k, body, out, order) =>
      if Executes(s, k) && CommitTx(s.db, JobOf(s, k), s.workers[k].history, body, out, s.now, order).Committed? {
        CommitTold(s, k, body, out, order, r);
      }
    case Fail(k, reason, order) =>
      if Executes(s, k) && JobOf(s, k).run in s.db.runs { StopTold(s.db, JobOf(s, k).run, reason, "", order, r); }
    case StreamCancel(k, order) =>
      if Executes(s, k) && JobOf(s, k).run in s.db.runs { StopTold(s.db, JobOf(s, k).run, "", "", order, r); }
    case Ack(k) =>
      forall v: WaitId | Unresumed(AckStep(s, k).db, v) ensures Unresumed(s.db, v) {
      }
      ToldSame(s.db, AckStep(s, k).db, r);
    case Crash(k) =>
  }

  lemma SweepTold(c: Config, s: State, a: SweepAction, r: RunId)
    requires Told(s.db, r)
    ensures Told(SweepStep(c, s, a).db, r)
  {
    var b := SweepStep(c, s, a).db;
    if a.SweepResolve? {
      if a.sweeper in s.sweepers && s.sweepers[a.sweeper].Resolving? && s.sweepers[a.sweeper].todo != [] {
        TryCloseTold(s.db, s.sweepers[a.sweeper].todo[0], ByDeadline, r);
      }
    } else {
      forall v: WaitId | Unresumed(b, v) ensures Unresumed(s.db, v) {
      }
      ToldSame(s.db, b, r);
    }
  }

  lemma NextTold(c: Config, s: State, a: Action, r: RunId)
    requires Inv(s)
    ensures Told(Next(c, s, a).db, r)
  {
    assert Told(s.db, r);
    match a
    case Api(x) => ApiTold(s, x, r);
    case Work(x) => WorkTold(s, x, r);
    case Sweep(x) => SweepTold(c, s, x, r);
    case Tick(_) =>
  }

  predicate MayCommit(db: Db, j: nat) {
    && j < |db.jobs| && db.jobs[j].run in db.runs
    && db.runs[db.jobs[j].run].state.Running? && db.jobs[j].step == |db.runs[db.jobs[j].run].steps|
  }

  /** A claimed step that may still commit could have done so all along. */
  lemma MayCommitBefore(a: Db, b: Db, w: Worker)
    requires Evolves(a, b) && RunOrphans.WorkerOk(a, w) && RunOrphans.JobOk(a, a.jobs[w.job])
    requires w.Executing? && MayCommit(b, w.job)
    ensures MayCommit(a, w.job)
  {
    assert RunEvolves(a.runs[a.jobs[w.job].run], b.runs[a.jobs[w.job].run]);
  }

  lemma StartGrown(db: Db, q: RunId, text: string, r: RunId)
    requires r in db.runs && db.runs[r].state.Running?
    ensures StartTx(db, q, text).Committed? ==> Grown(db, StartTx(db, q, text).value, r)
    ensures AnswerTx(db, q, text).Committed? ==> Grown(db, AnswerTx(db, q, text).value, r)
  {
    if StartTx(db, q, text).Committed? { SameGrown(db, StartTx(db, q, text).value, r); }
    if AnswerTx(db, q, text).Committed? { SameGrown(db, AnswerTx(db, q, text).value, r); }
  }

  lemma CancelGrown(db: Db, q: RunId, r: RunId)
    requires r in db.runs && db.runs[r].state.Running?
    ensures CancelRequestTx(db, q).Committed? ==> Grown(db, CancelRequestTx(db, q).value, r)
    ensures ExpireTx(db, q).Committed? ==> Grown(db, ExpireTx(db, q).value, r)
  {
    if CancelRequestTx(db, q).Committed? { SameGrown(db, CancelRequestTx(db, q).value, r); }
    if ExpireTx(db, q).Committed? { SameGrown(db, ExpireTx(db, q).value, r); }
  }

  lemma ApiGrown(s: State, a: ApiAction, r: RunId)
    requires r in s.db.runs && s.db.runs[r].state.Running?
    ensures Grown(s.db, ApiStep(s, a).db, r)
  {
    SameGrown(s.db, s.db, r);
    match a
    case Start(q, prompt) => StartGrown(s.db, q, prompt, r);
    case AnswerRun(q, text) => StartGrown(s.db, q, text, r);
    case CancelRun(q) => CancelGrown(s.db, q, r);
    case ExpireRun(q) => CancelGrown(s.db, q, r);
  }

  lemma ClaimGrown(db: Db, job: StepJob, order: seq<WaitId>, r: RunId)
    requires r in db.runs && r in ClaimTx(db, job, order).db.runs
    requires db.runs[r].state.Running? && ClaimTx(db, job, order).db.runs[r].state.Running?
    ensures Grown(db, ClaimTx(db, job, order).db, r)
  {
    SameGrown(db, db, r);
    if job.run in db.runs && db.runs[job.run].state.Active() {
      if db.runs[job.run].cancelRequested {
        if r == job.run { RunOrphans.TerminalTx(db, r, "", order); } else { StopGrown(db, job.run, "", "", order, r); }
      } else {
        forall v: WaitId | Unresumed(ClaimTx(db, job, order).db, v) ensures Unresumed(db, v) {
        }
        SameGrown(db, ClaimTx(db, job, order).db, r);
      }
    }
  }

  lemma StopStepGrown(db: Db, q: RunId, reason: string, order: seq<WaitId>, r: RunId)
    requires r in db.runs && q in db.runs && db.runs[r].state.Running?
    requires r in CancelTx(db, q, order).runs && r in FailTx(db, q, reason, order).runs
    ensures CancelTx(db, q, order).runs[r].state.Running? ==> Grown(db, CancelTx(db, q, order), r)
    ensures FailTx(db, q, reason, order).runs[r].state.Running? ==> Grown(db, FailTx(db, q, reason, order), r)
  {
    if r == q { RunOrphans.TerminalTx(db, r, reason, order); } else { StopGrown(db, q, reason, "", order, r); }
  }

  lemma CommitStepGrown(s: State, k: nat, body: seq<string>, out: StepOutcome, order: seq<WaitId>, r: RunId)
    requires RunWaits.Inv(s) && r in s.db.runs && s.db.runs[r].state.Running?
    requires Executes(s, k) && CommitTx(s.db, JobOf(s, k), s.workers[k].history, body, out, s.now, order).Committed?
    requires var b := CommitTx(s.db, JobOf(s, k), s.workers[k].history, body, out, s.now, order).value;
             r in b.runs && b.runs[r].state.Running? && |b.runs[r].steps| == |s.db.runs[r].steps|
    ensures Grown(s.db, CommitTx(s.db, JobOf(s, k), s.workers[k].history, body, out, s.now, order).value, r)
  {
    var job := JobOf(s, k);
    assert RunOrphans.JobOk(s.db, s.db.jobs[s.workers[k].job]);
    if r != job.run {
      if !s.db.runs[job.run].cancelRequested {
        RunWaits.FreshWait(s.db, job, if out.Park? then out.call else "");
        CommitGrown(s.db, job, s.workers[k].history, body, out, s.now, order, r);
      } else {
        StopGrown(s.db, job.run, "", "", order, r);
      }
    } else if s.db.runs[r].cancelRequested {
      RunOrphans.TerminalTx(s.db, r, "", order);
    } else {
      RunOrphans.CommitTxRecords(s.db, job, s.workers[k].history, body, out, s.now, order);
    }
  }

  lemma WorkGrown(s: State, a: WorkAction, r: RunId)
    requires RunWaits.Inv(s) && r in s.db.runs && s.db.runs[r].state.Running?
    requires var b := WorkStep(s, a).db;
             r in b.runs && b.runs[r].state.Running? && |b.runs[r].steps| == |s.db.runs[r].steps|
    ensures Grown(s.db, WorkStep(s, a).db, r)
  {
    SameGrown(s.db, s.db, r);
    match a
    case Claim(k, job, order) => if WorkStep(s, a) != s { ClaimGrown(s.db, s.db.jobs[job], order, r); }
    case Commit(k, body, out, order) => if WorkStep(s, a).db != s.db { CommitStepGrown(s, k, body, out, order, r); }
    case Fail(k, reason, order) =>
      if WorkStep(s, a).db != s.db {
        CancelTxEvolves(s.db, JobOf(s, k).run, order);
        StopStepGrown(s.db, JobOf(s, k).run, reason, order, r);
      }
    case StreamCancel(k, order) =>
      if WorkStep(s, a).db != s.db {
        FailTxEvolves(s.db, JobOf(s, k).run, "", order);
        StopStepGrown(s.db, JobOf(s, k).run, "", order, r);
      }
    case _ =>
      forall v: WaitId | Unresumed(WorkStep(s, a).db, v) ensures Unresumed(s.db, v) {
      }
      SameGrown(s.db, WorkStep(s, a).db, r);
  }

  lemma SweepGrown(c: Config, s: State, a: SweepAction, r: RunId)
    requires r in s.db.runs
    ensures Grown(s.db, SweepStep(c, s, a).db, r)
  {
    SameGrown(s.db, s.db, r);
    if a.SweepResolve? {
      if a.sweeper in s.sweepers && s.sweepers[a.sweeper].Resolving? && s.sweepers[a.sweeper].todo != [] {
        TryCloseGrown(s.db, s.sweepers[a.sweeper].todo[0], ByDeadline, r);
      }
    } else {
      forall v: WaitId | Unresumed(SweepStep(c, s, a).db, v) ensures Unresumed(s.db, v) {
      }
      SameGrown(s.db, SweepStep(c, s, a).db, r);
    }
  }

  /** While a run keeps running the same step, only wait outcomes can be added to its history. */
  lemma NextGrown(c: Config, s: State, a: Action, r: RunId)
    requires RunWaits.Inv(s) && r in s.db.runs && s.db.runs[r].state.Running?
    requires var b := Next(c, s, a).db;
             r in b.runs && b.runs[r].state.Running? && |b.runs[r].steps| == |s.db.runs[r].steps|
    ensures Grown(s.db, Next(c, s, a).db, r)
  {
    match a
    case Api(x) => ApiGrown(s, x, r);
    case Work(x) => WorkGrown(s, x, r);
    case Sweep(x) => SweepGrown(c, s, x, r);
    case Tick(_) => SameGrown(s.db, s.db, r);
  }

  lemma {:induction false} CleanPrefix(a: seq<Event>, b: seq<Event>, r: RunId)
    requires a <= b && Clean(b, r)
    ensures Clean(a, r)
  {
    forall i | 0 <= i < |a| ensures !(a[i].UserMessage? && a[i].run == r && a[i].bypassed) {
      assert b[i] == a[i];
    }
  }

  /** A copy of a history that has only grown by outcomes since is still a good copy. */
  lemma CopyGrown(a: Db, b: Db, w: Worker)
    requires w.Executing? && MayCommit(a, w.job) && MayCommit(b, w.job) && CopyOk(a, w) && Evolves(a, b)
    requires Told(a, a.jobs[w.job].run) && Grown(a, b, a.jobs[w.job].run)
    ensures CopyOk(b, w)
  {
    var r := a.jobs[w.job].run;
    var x, y, z := w.history, a.runs[r].history, b.runs[r].history;
    assert z[|x|..] == y[|x|..] + z[|y|..];
    if Clean(b.log, r) { CleanPrefix(a.log, b.log, r); }
  }

  lemma KeptCopyOk(c: Config, s: State, a: Action, w: Worker)
    requires Inv(s) && CopyOk(s.db, w) && RunOrphans.WorkerOk(s.db, w)
    ensures CopyOk(Next(c, s, a).db, w)
  {
    var t := Next(c, s, a);
    NextEvolves(c, s, a);
    if w.Executing? && MayCommit(t.db, w.job) {
      var r := s.db.jobs[w.job].run;
      assert RunOrphans.JobOk(s.db, s.db.jobs[w.job]) && Told(s.db, r);
      MayCommitBefore(s.db, t.db, w);
      NextGrown(c, s, a, r);
      CopyGrown(s.db, t.db, w);
    }
  }

  lemma NewCopyOk(s: State, a: WorkAction, k: nat)
    requires RunOrphans.RunsOk(s.db) && k in WorkStep(s, a).workers
    requires k in s.workers ==> WorkStep(s, a).workers[k] != s.workers[k]
    ensures CopyOk(WorkStep(s, a).db, WorkStep(s, a).workers[k])
  {
  }

  lemma NextInv(c: Config, s: State, a: Action)
    requires Inv(s) && RunWaits.Inv(Next(c, s, a))
    ensures Inv(Next(c, s, a))
  {
    var t := Next(c, s, a);
    forall r ensures Told(t.db, r) { NextTold(c, s, a, r); }
    forall k | k in t.workers ensures CopyOk(t.db, t.workers[k]) {
      if k in s.workers && t.workers[k] == s.workers[k] {
        assert CopyOk(s.db, s.workers[k]) && RunOrphans.WorkerOk(s.db, s.workers[k]);
        KeptCopyOk(c, s, a, s.workers[k]);
      } else {
        NewCopyOk(s, a.work, k);
      }
    }
  }

  lemma {:induction false} ExecInv(c: Config, acts: seq<Action>)
    ensures Inv(Exec(c, acts))
    decreases |acts|
  {
    RunWaits.ExecInv(c, acts);
    if acts != [] {
      ExecInv(c, acts[..|acts| - 1]);
      NextInv(c, Exec(c, acts[..|acts| - 1]), acts[|acts| - 1]);
    }
  }
}

/**
  Exactly when a wake-up is lost.  A wait is awaited while one of its members is
  not terminal; of all steps only a handler's cancellation of the last such
  member leaves an open wait that nobody will close before its deadline.
 */
module RunWakeUps {
  import opened Options
  import opened RunTables
  import opened RunMachine
  import opened RunEvolution
  import opened RunTally
  import opened RunWaits
  import RunOrphans
  import RunHistory

  ghost predicate Awaited(db: Db, w: WaitId) {
    w in db.waits && exists m :: m in db.waits[w].members && !IsTerminal(db, m)
  }

  lemma AwaitedStays(a: Db, b: Db, w: WaitId)
    requires Awaited(a, w) && w in b.waits && a.waits[w].members == b.waits[w].members
    requires forall m :: m in a.waits[w].members && IsTerminal(b, m) ==> IsTerminal(a, m)
    ensures Awaited(b, w)
  {
    var m :| m in a.waits[w].members && !IsTerminal(a, m);
    assert m in b.waits[w].members && !IsTerminal(b, m);
  }

  lemma PendingAwaited(db: Db, w: WaitId)
    requires w in db.waits && !Closable(db, w, ByChild)
    ensures Awaited(db, w)
  {
    TallyPending(db, db.waits[w].members, |db.waits[w].members|);
    var i :| 0 <= i < |db.waits[w].members| && !IsTerminal(db, db.waits[w].members[i]);
    assert db.waits[w].members[i] in db.waits[w].members;
  }

  /** A wait still open after an attempt to close some wait is awaited if it was, or if it is that wait. */
  lemma TryCloseAwaited(db: Db, v: WaitId, reason: CloseReason, w: WaitId)
    requires IsOpen(TryClose(db, v, reason), w) && (w != v ==> Awaited(db, w))
    ensures IsOpen(db, w) && Awaited(TryClose(db, v, reason), w)
  {
    var b := TryClose(db, v, reason);
    TryCloseOpens(db, v, reason, w);
    if w == v {
      PendingAwaited(db, w);
    } else {
      if Closable(db, v, reason) { TryCloseShape(db, v, reason); }
      forall m | m in db.waits[w].members && IsTerminal(b, m) ensures IsTerminal(db, m) {
        TryCloseKeepsTerminal(db, v, reason, m);
      }
      AwaitedStays(db, b, w);
    }
  }

  lemma {:induction false} ResolveAllOpens(db: Db, ws: seq<WaitId>, w: WaitId)
    requires IsOpen(ResolveAll(db, ws), w)
    ensures IsOpen(db, w)
    decreases |ws|
  {
    if ws != [] {
      ResolveAllOpens(TryClose(db, ws[0], ByChild), ws[1..], w);
      TryCloseOpens(db, ws[0], ByChild, w);
    }
  }

  lemma {:induction false} ResolveAllAwaited(db: Db, ws: seq<WaitId>, w: WaitId)
    requires IsOpen(ResolveAll(db, ws), w) && (w !in ws ==> Awaited(db, w))
    ensures Awaited(ResolveAll(db, ws), w)
    decreases |ws|
  {
    if ws != [] {
      var b := TryClose(db, ws[0], ByChild);
      ResolveAllOpens(b, ws[1..], w);
      if w !in ws[1..] {
        assert w != ws[0] ==> w !in ws;
        TryCloseAwaited(db, ws[0], ByChild, w);
      }
      ResolveAllAwaited(b, ws[1..], w);
    }
  }

  /** b is a with only run r possibly made terminal. */
  ghost predicate OnlyStops(a: Db, b: Db, r: RunId) {
    b.waits == a.waits && forall q :: q != r && IsTerminal(b, q) ==> IsTerminal(a, q)
  }

  /** A run that stops through a worker settles every wait it belongs to. */
  lemma SettleAwaited(a: Db, b: Db, r: RunId, order: seq<WaitId>, w: WaitId)
    requires OnlyStops(a, b, r) && Lists(a, r, order) && Awaited(a, w) && IsOpen(Settle(b, r, order), w)
    ensures Awaited(Settle(b, r, order), w)
  {
    var d := Abandon(b, r);
    ResolveAllOpens(d, order, w);
    if w !in order {
      assert w !in WaitsToSettle(a, r);
      AwaitedStays(a, d, w);
    }
    ResolveAllAwaited(d, order, w);
  }

  lemma StopAwaited(db: Db, r: RunId, reason: string, text: string, order: seq<WaitId>, w: WaitId)
    requires Lists(db, r, order) && Awaited(db, w)
    ensures IsOpen(CancelTx(db, r, order), w) ==> Awaited(CancelTx(db, r, order), w)
    ensures IsOpen(FailTx(db, r, reason, order), w) ==> Awaited(FailTx(db, r, reason, order), w)
    ensures r in db.runs && IsOpen(FinishTx(db, r, text, order), w) ==> Awaited(FinishTx(db, r, text, order), w)
  {
    if IsOpen(CancelTx(db, r, order), w) {
      SettleAwaited(db, Append(SetState(db, r, Cancelled, ""), RunCancelled(r, true)), r, order, w);
    }
    if IsOpen(FailTx(db, r, reason, order), w) && FailTx(db, r, reason, order) != db {
      SettleAwaited(db, Append(SetState(db, r, Failed, reason), RunFailed(r)), r, order, w);
    }
    if r in db.runs && IsOpen(FinishTx(db, r, text, order), w) {
      var run := db.runs[r].(state := Completed, failure := "", result := text);
      SettleAwaited(db, Append(PutRun(db, r, run), RunCompleted(r)), r, order, w);
    }
  }

  lemma ParkAwaited(db: Db, r: RunId, step: nat, out: StepOutcome, now: Time, w: WaitId)
    requires out.Park? && r in db.runs && db.runs[r].state.Running?
    requires WaitId(r, step, out.call) !in db.waits && ParkTx(db, r, step, out, now).Committed?
    requires (w in db.waits ==> Awaited(db, w)) && IsOpen(ParkTx(db, r, step, out, now).value, w)
    ensures Awaited(ParkTx(db, r, step, out, now).value, w)
  {
    var v := WaitId(r, step, out.call);
    var created := PutWait(db, v, Wait(Open, out.members, now + out.timeout, out.policy, false, None));
    RunHistory.ParkTxCases(db, r, step, out, now);
    if w != v && w in db.waits { AwaitedStays(db, created, w); }
    if Closable(created, v, ByChild) && Resumes(created, v) {
      TryCloseAwaited(created, v, ByChild, w);
    } else {
      if w == v { PendingAwaited(created, v); }
      AwaitedStays(created, ParkRows(created, r, now + out.timeout), w);
    }
  }

  lemma ClassifyAwaited(db: Db, r: RunId, step: nat, out: StepOutcome, now: Time, order: seq<WaitId>, w: WaitId)
    requires r in db.runs && db.runs[r].state.Running? && Lists(db, r, order)
    requires (out.Park? ==> WaitId(r, step, out.call) !in db.waits) && (w in db.waits ==> Awaited(db, w))
    requires var tx := ClassifyTx(db, r, step, out, now, order); tx.Committed? && IsOpen(tx.value, w)
    ensures Awaited(ClassifyTx(db, r, step, out, now, order).value, w)
  {
    if out.Park? {
      ParkAwaited(db, r, step, out, now, w);
    } else if out.Finish? {
      ResolveAllOpens(Abandon(Append(PutRun(db, r, db.runs[r].(state := Completed, failure := "", result := out.text)),
                                     RunCompleted(r)), r), order, w);
      StopAwaited(db, r, "", out.text, order, w);
    } else {
      AwaitedStays(db, ClassifyTx(db, r, step, out, now, order).value, w);
    }
  }

  lemma CommitAwaited(s: State, k: nat, body: seq<string>, out: StepOutcome, order: seq<WaitId>, w: WaitId)
    requires RunWaits.Inv(s) && Executes(s, k) && Lists(s.db, JobOf(s, k).run, order)
    requires w in s.db.waits ==> Awaited(s.db, w)
    requires CommitTx(s.db, JobOf(s, k), s.workers[k].history, body, out, s.now, order).Committed?
    requires IsOpen(CommitTx(s.db, JobOf(s, k), s.workers[k].history, body, out, s.now, order).value, w)
    ensures Awaited(CommitTx(s.db, JobOf(s, k), s.workers[k].history, body, out, s.now, order).value, w)
  {
    var job := JobOf(s, k);
    assert RunOrphans.JobOk(s.db, s.db.jobs[s.workers[k].job]);
    if s.db.runs[job.run].cancelRequested {
      var stopped := Append(SetState(s.db, job.run, Cancelled, ""), RunCancelled(job.run, true));
      ResolveAllOpens(Abandon(stopped, job.run), order, w);
      StopAwaited(s.db, job.run, "", "", order, w);
    } else {
      var recorded := RecordStep(s.db, job, s.workers[k].history, body);
      FreshWait(s.db, job, if out.Park? then out.call else "");
      assert Lists(recorded, job.run, order);
      if w in s.db.waits { AwaitedStays(s.db, recorded, w); }
      ClassifyAwaited(recorded, job.run, job.step, out, s.now, order, w);
    }
  }

  lemma WorkAwaited(s: State, a: WorkAction, w: WaitId)
    requires RunWaits.Inv(s) && (w in s.db.waits ==> Awaited(s.db, w)) && IsOpen(WorkStep(s, a).db, w)
    ensures Awaited(WorkStep(s, a).db, w)
  {
    if WorkStep(s, a).db != s.db {
      match a
      case Claim(k, job, order) => ClaimAwaited(s, k, job, order, w);
      case Commit(k, body, out, order) => CommitAwaited(s, k, body, out, order, w);
      case Fail(k, reason, order) => StopStepsAwaited(s, k, reason, order, w);
      case StreamCancel(k, order) => StopStepsAwaited(s, k, "", order, w);
      case _ => AwaitedStays(s.db, WorkStep(s, a).db, w);
    }
  }

  lemma StopOpens(db: Db, r: RunId, reason: string, order: seq<WaitId>, w: WaitId)
    ensures IsOpen(CancelTx(db, r, order), w) ==> IsOpen(db, w)
    ensures IsOpen(FailTx(db, r, reason, order), w) ==> IsOpen(db, w)
  {
    if IsOpen(CancelTx(db, r, order), w) {
      ResolveAllOpens(Abandon(Append(SetState(db, r, Cancelled, ""), RunCancelled(r, true)), r), order, w);
    }
    if IsOpen(FailTx(db, r, reason, order), w) && FailTx(db, r, reason, order) != db {
      ResolveAllOpens(Abandon(Append(SetState(db, r, Failed, reason), RunFailed(r)), r), order, w);
    }
  }

  lemma ClaimAwaited(s: State, k: nat, job: nat, order: seq<WaitId>, w: WaitId)
    requires (w in s.db.waits ==> Awaited(s.db, w)) && IsOpen(ClaimStep(s, k, job, order).db, w)
    requires ClaimStep(s, k, job, order).db != s.db
    ensures Awaited(ClaimStep(s, k, job, order).db, w)
  {
    var r := s.db.jobs[job].run;
    StopOpens(s.db, r, "", order, w);
    if ClaimTx(s.db, s.db.jobs[job], order).Claimed? {
      AwaitedStays(s.db, ClaimStep(s, k, job, order).db, w);
    } else {
      StopAwaited(s.db, r, "", "", order, w);
    }
  }

  lemma StopStepsAwaited(s: State, k: nat, reason: string, order: seq<WaitId>, w: WaitId)
    requires (w in s.db.waits ==> Awaited(s.db, w)) && Executes(s, k) && Lists(s.db, JobOf(s, k).run, order)
    ensures var db := FailTx(s.db, JobOf(s, k).run, reason, order); IsOpen(db, w) ==> Awaited(db, w)
    ensures var db := CancelTx(s.db, JobOf(s, k).run, order); IsOpen(db, w) ==> Awaited(db, w)
  {
    StopOpens(s.db, JobOf(s, k).run, reason, order, w);
    if w in s.db.waits { StopAwaited(s.db, JobOf(s, k).run, reason, "", order, w); }
  }

  lemma SweepAwaited(c: Config, s: State, a: SweepAction, w: WaitId)
    requires (w in s.db.waits ==> Awaited(s.db, w)) && IsOpen(SweepStep(c, s, a).db, w)
    ensures Awaited(SweepStep(c, s, a).db, w)
  {
    if SweepStep(c, s, a).db != s.db {
      if a.SweepResolve? {
        TryCloseOpens(s.db, s.sweepers[a.sweeper].todo[0], ByDeadline, w);
        TryCloseAwaited(s.db, s.sweepers[a.sweeper].todo[0], ByDeadline, w);
      } else {
        AwaitedStays(s.db, SweepStep(c, s, a).db, w);
      }
    }
  }

  // ---------------------------------------------------------------- theorem

  /** The call cancels an awaiting run that is the wait's only member not terminal. */
  ghost predicate CancelsLastMember(db: Db, w: WaitId, a: Action) {
    && a.Api? && (a.api.CancelRun? || a.api.ExpireRun?)
    && a.api.run in db.runs && db.runs[a.api.run].state.Awaiting?
    && w in db.waits && forall m :: m in db.waits[w].members && !IsTerminal(db, m) ==> m == a.api.run
  }

  /** With one more run terminal, a wait stays awaited exactly if it has another member that is not. */
  lemma OneStops(a: Db, b: Db, r: RunId, w: WaitId)
    requires w in a.waits && w in b.waits && a.waits[w].members == b.waits[w].members && IsTerminal(b, r)
    requires forall q :: q != r ==> IsTerminal(b, q) == IsTerminal(a, q)
    ensures Awaited(b, w) <==> exists m :: m in a.waits[w].members && !IsTerminal(a, m) && m != r
  {
    if Awaited(b, w) {
      var m :| m in b.waits[w].members && !IsTerminal(b, m);
      assert m in a.waits[w].members && !IsTerminal(a, m) && m != r;
    }
    if m :| m in a.waits[w].members && !IsTerminal(a, m) && m != r {
      assert m in b.waits[w].members && !IsTerminal(b, m);
    }
  }

  lemma HandlerAwaited(s: State, a: ApiAction, w: WaitId)
    requires a.CancelRun? || a.ExpireRun?
    requires Awaited(s.db, w) && IsOpen(ApiStep(s, a).db, w)
    ensures !Awaited(ApiStep(s, a).db, w) <==> CancelsLastMember(s.db, w, Api(a))
  {
    var b := ApiStep(s, a).db;
    if a.run in s.db.runs && s.db.runs[a.run].state.Awaiting? {
      OneStops(s.db, b, a.run, w);
    } else {
      AwaitedStays(s.db, b, w);
    }
  }

  lemma ApiAwaited(s: State, a: ApiAction, w: WaitId)
    requires (w in s.db.waits ==> Awaited(s.db, w)) && IsOpen(ApiStep(s, a).db, w)
    ensures !Awaited(ApiStep(s, a).db, w) <==> CancelsLastMember(s.db, w, Api(a))
  {
    if a.CancelRun? || a.ExpireRun? {
      HandlerAwaited(s, a, w);
    } else {
      AwaitedStays(s.db, ApiStep(s, a).db, w);
    }
  }

  /**
    Exactly when a step loses a wake-up.  A wait that is open after a step, and
    was awaited before it if it existed, is not awaited after it if and only if
    the step is a handler cancelling or expiring the last member it waits for.
   */
  lemma WakeUpLostExactlyWhen(c: Config, acts: seq<Action>, a: Action, w: WaitId)
    requires var s := Exec(c, acts);
             (w in s.db.waits ==> Awaited(s.db, w)) && IsOpen(Next(c, s, a).db, w)
    ensures var s := Exec(c, acts);
            !Awaited(Next(c, s, a).db, w) <==> CancelsLastMember(s.db, w, a)
  {
    var s := Exec(c, acts);
    RunWaits.ExecInv(c, acts);
    match a
    case Api(x) => ApiAwaited(s, x, w);
    case Work(x) => WorkAwaited(s, x, w);
    case Sweep(x) => SweepAwaited(c, s, x, w);
    case Tick(_) =>
  }

  /**
    No lost wake-up over whole runs: if no handler ever cancels the last member a
    wait has left, every open wait has a member that is not terminal.
   */
  lemma {:induction false} OpenWaitsAreAwaited(c: Config, acts: seq<Action>, w: WaitId)
    requires forall i, v :: 0 <= i < |acts| ==> !CancelsLastMember(Exec(c, acts[..i]).db, v, acts[i])
    requires IsOpen(Exec(c, acts).db, w)
    ensures Awaited(Exec(c, acts).db, w)
    decreases |acts|
  {
    if acts != [] {
      var before, n := acts[..|acts| - 1], |acts| - 1;
      forall i, v | 0 <= i < |before| ensures !CancelsLastMember(Exec(c, before[..i]).db, v, before[i]) {
        assert before[..i] == acts[..i];
        assert !CancelsLastMember(Exec(c, acts[..i]).db, v, acts[i]);
      }
      var s := Exec(c, before);
      NextEvolves(c, s, acts[n]);
      if w in s.db.waits {
        assert WaitEvolves(s.db.waits[w], Exec(c, acts).db.waits[w]);
        OpenWaitsAreAwaited(c, before, w);
      }
      WakeUpLostExactlyWhen(c, before, acts[n], w);
      assert !CancelsLastMember(Exec(c, acts[..n]).db, w, acts[n]);
    }
  }
}

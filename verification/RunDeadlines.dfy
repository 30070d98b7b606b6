/**
  Armed deadlines.  Every open wait has a live sweep scheduled at or after its
  deadline, unless a sweep that came for it skipped its row because another
  transaction held it locked.
 */
module RunDeadlines {
  import opened Options
  import opened RunTables
  import opened RunMachine
  import opened RunEvolution
  import opened RunWaits
  import RunOrphans

  predicate Covers(db: Db, j: nat, deadline: Time) {
    j in db.liveSweeps && j < |db.sweeps| && deadline <= db.sweeps[j]
  }

  /** A sweep strictly later than sweep i that covers the deadline as well. */
  predicate Relieves(db: Db, j: nat, i: nat, deadline: Time) {
    Covers(db, j, deadline) && i < |db.sweeps| && db.sweeps[i] < db.sweeps[j]
  }

  /** The open waits the guarantee is about. */
  predicate Guarded(s: State, w: WaitId) {
    IsOpen(s.db, w) && w !in s.skipped
  }

  ghost predicate Armed(s: State) {
    && (forall j :: j in s.db.liveSweeps ==> j < |s.db.sweeps|)
    && (forall w {:trigger Guarded(s, w)} :: Guarded(s, w) ==> exists j :: Covers(s.db, j, s.db.waits[w].deadline))
  }

  /**
    A sweeper read the clock no earlier than its job was due.  Unless its batch
    was truncated, nothing due at that reading is still open; once it is ready to
    acknowledge, whatever is has been handed to a later sweep.
   */
  ghost predicate SweeperOk(s: State, sw: Sweeper) {
    && sw.job < |s.db.sweeps| && s.db.sweeps[sw.job] <= sw.at <= s.now
    && match sw
       case Resolving(job, at, todo, full) =>
         !full ==> forall w {:trigger Guarded(s, w)} :: Guarded(s, w) ==> at < s.db.waits[w].deadline
       case SweepAcking(job, at) =>
         forall w {:trigger Guarded(s, w)} :: Guarded(s, w) && s.db.waits[w].deadline <= at ==>
           exists j :: Relieves(s.db, j, job, s.db.waits[w].deadline)
  }

  ghost predicate Inv(s: State) {
    && Armed(s)
    && (forall k {:trigger SweeperOk(s, s.sweepers[k])} :: k in s.sweepers ==> SweeperOk(s, s.sweepers[k]))
  }

  // ---------------------------------------------------------------- steps that leave the sweeps alone

  /** No sweep is added or removed and no wait becomes open. */
  ghost predicate Still(a: Db, b: Db) {
    && b.sweeps == a.sweeps && b.liveSweeps == a.liveSweeps
    && (forall w {:trigger IsOpen(b, w)} :: IsOpen(b, w) ==> IsOpen(a, w))
  }

  lemma TryCloseStill(db: Db, w: WaitId, reason: CloseReason)
    ensures Still(db, TryClose(db, w, reason))
  {
    forall v | IsOpen(TryClose(db, w, reason), v) ensures IsOpen(db, v) {
      TryCloseOpens(db, w, reason, v);
    }
  }

  lemma {:induction false} ResolveAllStill(db: Db, ws: seq<WaitId>)
    ensures Still(db, ResolveAll(db, ws))
    decreases |ws|
  {
    if ws != [] {
      var b := TryClose(db, ws[0], ByChild);
      TryCloseStill(db, ws[0], ByChild);
      ResolveAllStill(b, ws[1..]);
      forall w | IsOpen(ResolveAll(db, ws), w) ensures IsOpen(db, w) { assert IsOpen(b, w); }
    }
  }

  lemma SettleStill(a: Db, b: Db, r: RunId, order: seq<WaitId>)
    requires b.waits == a.waits && b.sweeps == a.sweeps && b.liveSweeps == a.liveSweeps
    ensures Still(a, Settle(b, r, order))
  {
    ResolveAllStill(Abandon(b, r), order);
    forall w | IsOpen(Settle(b, r, order), w) ensures IsOpen(a, w) { assert IsOpen(Abandon(b, r), w); }
  }

  lemma StopStill(db: Db, r: RunId, reason: string, order: seq<WaitId>)
    ensures Still(db, CancelTx(db, r, order)) && Still(db, FailTx(db, r, reason, order))
  {
    SettleStill(db, Append(SetState(db, r, Cancelled, ""), RunCancelled(r, true)), r, order);
    SettleStill(db, Append(SetState(db, r, Failed, reason), RunFailed(r)), r, order);
  }

  /** A commit opens at most one wait, due in the future, and arms it. */
  ghost predicate Arms(a: Db, b: Db, now: Time) {
    && a.sweeps <= b.sweeps
    && (forall j :: j in b.liveSweeps <==> j in a.liveSweeps || |a.sweeps| <= j < |b.sweeps|)
    && (forall w {:trigger IsOpen(b, w)} :: IsOpen(b, w) ==>
          IsOpen(a, w) || (now < b.waits[w].deadline && exists j :: Covers(b, j, b.waits[w].deadline)))
  }

  lemma StillArms(a: Db, b: Db, now: Time)
    requires Still(a, b)
    ensures Arms(a, b, now)
  {
  }

  lemma ParkTxArms(db: Db, r: RunId, step: nat, out: StepOutcome, now: Time)
    requires out.Park? && out.timeout > 0 && ParkTx(db, r, step, out, now).Committed?
    requires WaitId(r, step, out.call) !in db.waits
    ensures Arms(db, ParkTx(db, r, step, out, now).value, now)
  {
    var w := WaitId(r, step, out.call);
    var wait := Wait(Open, out.members, now + out.timeout, out.policy, false, None);
    var created := PutWait(db, w, wait);
    var evaluated := TryClose(created, w, ByChild);
    var b := ParkTx(db, r, step, out, now).value;
    TryCloseStill(created, w, ByChild);
    if Closable(created, w, ByChild) { TryCloseShape(created, w, ByChild); }
    TryCloseEvolves(created, w, ByChild);
    assert b.waits == evaluated.waits;
    forall v | IsOpen(b, v)
      ensures IsOpen(db, v) || (now < b.waits[v].deadline && exists j :: Covers(b, j, b.waits[v].deadline))
    {
      assert IsOpen(evaluated, v) && IsOpen(created, v);
      if v == w { assert Covers(b, |db.sweeps|, wait.deadline); }
    }
  }

  lemma CommitArms(db: Db, job: StepJob, history: seq<Entry>, body: seq<string>, out: StepOutcome,
                   now: Time, order: seq<WaitId>)
    requires WellFormed(out) && CommitTx(db, job, history, body, out, now, order).Committed?
    requires out.Park? ==> WaitId(job.run, job.step, out.call) !in db.waits
    ensures Arms(db, CommitTx(db, job, history, body, out, now, order).value, now)
  {
    if db.runs[job.run].cancelRequested {
      StopStill(db, job.run, "", order);
    } else {
      var recorded := RecordStep(db, job, history, body);
      assert forall w :: IsOpen(recorded, w) ==> IsOpen(db, w);
      match out
      case Park(_, _, _, _) => ParkTxArms(recorded, job.run, job.step, out, now);
      case Ask =>
      case Continue =>
      case Finish(text) =>
        var run := recorded.runs[job.run].(state := Completed, failure := "", result := text);
        SettleStill(db, Append(PutRun(recorded, job.run, run), RunCompleted(job.run)), job.run, order);
    }
  }

  // ---------------------------------------------------------------- the machine

  lemma GuardedBefore(s: State, t: State, w: WaitId)
    requires Guarded(t, w) && Evolves(s.db, t.db) && s.skipped <= t.skipped && IsOpen(s.db, w)
    ensures Guarded(s, w) && t.db.waits[w].deadline == s.db.waits[w].deadline
  {
    assert WaitEvolves(s.db.waits[w], t.db.waits[w]);
  }

  /** Sweeps of a may be added to but not removed; no wait is opened unarmed or already due. */
  ghost predicate Safe(s: State, t: State) {
    Arms(s.db, t.db, s.now) && Evolves(s.db, t.db) && s.now <= t.now && s.skipped <= t.skipped
  }

  lemma SafeArmed(s: State, t: State)
    requires Armed(s) && Safe(s, t)
    ensures Armed(t)
  {
    forall w | Guarded(t, w) ensures exists j :: Covers(t.db, j, t.db.waits[w].deadline) {
      if IsOpen(s.db, w) {
        GuardedBefore(s, t, w);
        var j :| Covers(s.db, j, s.db.waits[w].deadline);
        assert Covers(t.db, j, t.db.waits[w].deadline);
      }
    }
  }

  lemma SafeSweeper(s: State, t: State, sw: Sweeper)
    requires SweeperOk(s, sw) && Safe(s, t)
    ensures SweeperOk(t, sw)
  {
    forall w | Guarded(t, w)
      ensures match sw
              case Resolving(job, at, todo, full) => !full ==> at < t.db.waits[w].deadline
              case SweepAcking(job, at) =>
                t.db.waits[w].deadline <= at ==> exists j :: Relieves(t.db, j, job, t.db.waits[w].deadline)
    {
      if IsOpen(s.db, w) {
        GuardedBefore(s, t, w);
        if sw.SweepAcking? && s.db.waits[w].deadline <= sw.at {
          var j :| Relieves(s.db, j, sw.job, s.db.waits[w].deadline);
          assert Relieves(t.db, j, sw.job, t.db.waits[w].deadline);
        }
      }
    }
  }

  /** A safe step keeps the invariant when the one sweeper that moved is accounted for. */
  lemma SafeInv(s: State, t: State, moved: nat)
    requires Inv(s) && Safe(s, t)
    requires forall k :: k in t.sweepers && k != moved ==> k in s.sweepers && t.sweepers[k] == s.sweepers[k]
    requires moved in t.sweepers ==>
               (moved in s.sweepers && t.sweepers[moved] == s.sweepers[moved]) || SweeperOk(t, t.sweepers[moved])
    ensures Inv(t)
  {
    SafeArmed(s, t);
    forall k | k in t.sweepers ensures SweeperOk(t, t.sweepers[k]) {
      if k in s.sweepers && t.sweepers[k] == s.sweepers[k] {
        assert SweeperOk(s, s.sweepers[k]);
        SafeSweeper(s, t, s.sweepers[k]);
      }
    }
  }

  lemma ApiStill(s: State, a: ApiAction)
    ensures Still(s.db, ApiStep(s, a).db)
  {
  }

  lemma StopArms(db: Db, r: RunId, reason: string, order: seq<WaitId>, now: Time)
    ensures Arms(db, CancelTx(db, r, order), now) && Arms(db, FailTx(db, r, reason, order), now)
  {
    StopStill(db, r, reason, order);
    StillArms(db, CancelTx(db, r, order), now);
    StillArms(db, FailTx(db, r, reason, order), now);
  }

  lemma ClaimArms(db: Db, job: StepJob, order: seq<WaitId>, now: Time)
    ensures Arms(db, ClaimTx(db, job, order).db, now)
  {
    StopArms(db, job.run, "", order, now);
    StillArms(db, db, now);
  }

  lemma WorkArms(s: State, a: WorkAction)
    requires RunWaits.Inv(s)
    ensures Arms(s.db, WorkStep(s, a).db, s.now)
  {
    StillArms(s.db, s.db, s.now);
    if WorkStep(s, a).db != s.db {
      match a
      case Claim(k, job, order) => ClaimArms(s.db, s.db.jobs[job], order, s.now);
      case Commit(k, body, out, order) => CommitStepArms(s, k, body, out, order);
      case Fail(k, reason, order) => StopArms(s.db, JobOf(s, k).run, reason, order, s.now);
      case StreamCancel(k, order) => StopArms(s.db, JobOf(s, k).run, "", order, s.now);
      case _ => StillArms(s.db, WorkStep(s, a).db, s.now);
    }
  }

  lemma CommitStepArms(s: State, k: nat, body: seq<string>, out: StepOutcome, order: seq<WaitId>)
    requires RunWaits.Inv(s) && Executes(s, k) && WellFormed(out)
    requires CommitTx(s.db, JobOf(s, k), s.workers[k].history, body, out, s.now, order).Committed?
    ensures Arms(s.db, CommitTx(s.db, JobOf(s, k), s.workers[k].history, body, out, s.now, order).value, s.now)
  {
    assert RunOrphans.JobOk(s.db, s.db.jobs[s.workers[k].job]);
    if s.db.runs[JobOf(s, k).run].cancelRequested {
      StopStill(s.db, JobOf(s, k).run, "", order);
    } else {
      FreshWait(s.db, JobOf(s, k), if out.Park? then out.call else "");
      CommitArms(s.db, JobOf(s, k), s.workers[k].history, body, out, s.now, order);
    }
  }

  lemma SweepClaimInv(c: Config, s: State, k: nat, job: nat, due: seq<WaitId>, locked: set<WaitId>)
    requires Inv(s)
    ensures Inv(SweepClaimStep(c, s, k, job, due, locked))
  {
    var t := SweepClaimStep(c, s, k, job, due, locked);
    if t != s {
      SweepClaimEvolves(c, s, k, job, due, locked);
      forall w | IsOpen(t.db, w) ensures IsOpen(s.db, w) && w !in due {
      }
      if |due| != c.batch {
        forall w | Guarded(t, w) ensures s.now < t.db.waits[w].deadline {
          GuardedBefore(s, t, w);
          assert Due(s.db, w, s.now) ==> w in locked || w in due;
        }
      }
      SafeInv(s, t, k);
    }
  }

  lemma SweepResolveInv(s: State, k: nat)
    requires Inv(s)
    ensures Inv(SweepResolveStep(s, k))
  {
    var t := SweepResolveStep(s, k);
    if k in s.sweepers && s.sweepers[k].Resolving? && s.sweepers[k].todo != [] {
      TryCloseStill(s.db, s.sweepers[k].todo[0], ByDeadline);
      TryCloseEvolves(s.db, s.sweepers[k].todo[0], ByDeadline);
      assert SweeperOk(s, s.sweepers[k]);
      SafeSweeper(s, t, s.sweepers[k]);
      SafeInv(s, t, k);
    }
  }

  /** Rearming hands everything still open and due to a strictly later sweep. */
  lemma RearmInv(c: Config, s: State, k: nat)
    requires Inv(s) && c.Valid() && k in s.sweepers
    ensures Inv(Rearm(c, s, k))
  {
    var t := Rearm(c, s, k);
    assert SweeperOk(s, s.sweepers[k]);
    assert forall w :: IsOpen(t.db, w) ==> IsOpen(s.db, w);
    forall w | Guarded(t, w) && t.db.waits[w].deadline <= s.sweepers[k].at
      ensures exists j :: Relieves(t.db, j, s.sweepers[k].job, t.db.waits[w].deadline)
    {
      assert Relieves(t.db, |s.db.sweeps|, s.sweepers[k].job, t.db.waits[w].deadline);
    }
    SafeInv(s, t, k);
  }

  lemma SweepDoneInv(c: Config, s: State, k: nat)
    requires Inv(s) && c.Valid()
    ensures Inv(SweepDoneStep(c, s, k))
  {
    if k in s.sweepers && s.sweepers[k].Resolving? && s.sweepers[k].todo == [] {
      if s.sweepers[k].full {
        RearmInv(c, s, k);
      } else {
        assert SweeperOk(s, s.sweepers[k]);
        var t := SweepDoneStep(c, s, k);
        forall w | Guarded(t, w) ensures s.sweepers[k].at < t.db.waits[w].deadline { assert Guarded(s, w); }
        SafeInv(s, t, k);
      }
    }
  }

  /** Acknowledging a sweep loses nothing: what it covered, a later live sweep covers. */
  lemma SweepAckInv(s: State, k: nat)
    requires Inv(s)
    ensures Inv(SweepAckStep(s, k))
  {
    var t := SweepAckStep(s, k);
    if t != s {
      var gone := s.sweepers[k].job;
      assert SweeperOk(s, s.sweepers[k]);
      forall w | Guarded(t, w) ensures exists j :: Covers(t.db, j, t.db.waits[w].deadline) {
        assert Guarded(s, w);
        var j :| Covers(s.db, j, s.db.waits[w].deadline);
        if j == gone {
          var i :| Relieves(s.db, i, gone, s.db.waits[w].deadline);
          assert Covers(t.db, i, t.db.waits[w].deadline);
        } else {
          assert Covers(t.db, j, t.db.waits[w].deadline);
        }
      }
      forall i | i in t.sweepers ensures SweeperOk(t, t.sweepers[i]) {
        AckKeepsSweeper(s, k, s.sweepers[i]);
        assert SweeperOk(s, s.sweepers[i]);
      }
    }
  }

  lemma AckKeepsSweeper(s: State, k: nat, sw: Sweeper)
    requires Inv(s) && k in s.sweepers && s.sweepers[k].SweepAcking?
    ensures SweeperOk(s, sw) ==> SweeperOk(SweepAckStep(s, k), sw)
  {
    var t := SweepAckStep(s, k);
    var gone := s.sweepers[k].job;
    assert SweeperOk(s, s.sweepers[k]);
    if SweeperOk(s, sw) {
      forall w | Guarded(t, w)
        ensures sw.SweepAcking? && t.db.waits[w].deadline <= sw.at ==>
                  exists j :: Relieves(t.db, j, sw.job, t.db.waits[w].deadline)
        ensures sw.Resolving? && !sw.full ==> sw.at < t.db.waits[w].deadline
      {
        assert Guarded(s, w);
        if sw.SweepAcking? && t.db.waits[w].deadline <= sw.at {
          var j :| Relieves(s.db, j, sw.job, s.db.waits[w].deadline);
          if j == gone {
            var i :| Relieves(s.db, i, gone, s.db.waits[w].deadline);
            assert Relieves(t.db, i, sw.job, t.db.waits[w].deadline);
          } else {
            assert Relieves(t.db, j, sw.job, t.db.waits[w].deadline);
          }
        }
      }
    }
  }

  lemma SweepInv(c: Config, s: State, a: SweepAction)
    requires Inv(s) && c.Valid()
    ensures Inv(SweepStep(c, s, a))
  {
    match a
    case SweepClaim(k, job, due, locked) => SweepClaimInv(c, s, k, job, due, locked);
    case SweepResolve(k) => SweepResolveInv(s, k);
    case SweepFail(k) => if k in s.sweepers { RearmInv(c, s, k); }
    case SweepDone(k) => SweepDoneInv(c, s, k);
    case SweepAck(k) => SweepAckInv(s, k);
    case SweepCrash(k) => SafeInv(s, SweepStep(c, s, a), k);
  }

  lemma ApiInv(s: State, a: ApiAction)
    requires Inv(s)
    ensures Inv(ApiStep(s, a))
  {
    ApiStill(s, a);
    ApiEvolves(s, a);
    SafeInv(s, ApiStep(s, a), 0);
  }

  lemma WorkInv(s: State, a: WorkAction)
    requires Inv(s) && RunWaits.Inv(s)
    ensures Inv(WorkStep(s, a))
  {
    WorkArms(s, a);
    WorkEvolves(s, a);
    SafeInv(s, WorkStep(s, a), 0);
  }

  lemma NextInv(c: Config, s: State, a: Action)
    requires c.Valid() && RunWaits.Inv(s) && Inv(s)
    ensures Inv(Next(c, s, a))
  {
    match a
    case Api(x) => ApiInv(s, x);
    case Work(x) => WorkInv(s, x);
    case Sweep(x) => SweepInv(c, s, x);
    case Tick(d) => SafeInv(s, Next(c, s, a), 0);
  }

  lemma {:induction false} ExecInv(c: Config, acts: seq<Action>)
    requires c.Valid()
    ensures Inv(Exec(c, acts))
    decreases |acts|
  {
    if acts != [] {
      RunWaits.ExecInv(c, acts[..|acts| - 1]);
      ExecInv(c, acts[..|acts| - 1]);
      NextInv(c, Exec(c, acts[..|acts| - 1]), acts[|acts| - 1]);
    }
  }

  // ---------------------------------------------------------------- exactly when a deadline is lost

  ghost predicate Covered(db: Db, w: WaitId) {
    w in db.waits && exists j :: Covers(db, j, db.waits[w].deadline)
  }

  /** The step acknowledges the one live sweep left at or after the wait's deadline. */
  ghost predicate AcksLastSweep(s: State, w: WaitId, a: Action) {
    && a.Sweep? && a.sweep.SweepAck? && a.sweep.sweeper in s.sweepers && s.sweepers[a.sweep.sweeper].SweepAcking?
    && w in s.db.waits
    && forall j :: Covers(s.db, j, s.db.waits[w].deadline) ==> j == s.sweepers[a.sweep.sweeper].job
  }

  lemma ArmsCovers(a: Db, b: Db, now: Time, w: WaitId)
    requires Arms(a, b, now) && Evolves(a, b) && IsOpen(b, w) && (w in a.waits ==> Covered(a, w))
    ensures Covered(b, w)
  {
    if IsOpen(a, w) {
      assert WaitEvolves(a.waits[w], b.waits[w]);
      var j :| Covers(a, j, a.waits[w].deadline);
      assert Covers(b, j, b.waits[w].deadline);
    }
  }

  lemma AckLoses(s: State, k: nat, w: WaitId)
    requires Covered(s.db, w) && IsOpen(SweepAckStep(s, k).db, w)
    ensures !Covered(SweepAckStep(s, k).db, w) <==> AcksLastSweep(s, w, Sweep(SweepAck(k)))
  {
    var t := SweepAckStep(s, k);
    if k in s.sweepers && s.sweepers[k].SweepAcking? {
      forall j ensures Covers(t.db, j, t.db.waits[w].deadline) <==>
                         Covers(s.db, j, s.db.waits[w].deadline) && j != s.sweepers[k].job {}
    }
  }

  lemma SweepArms(c: Config, s: State, a: SweepAction)
    requires !a.SweepAck? && forall j :: j in s.db.liveSweeps ==> j < |s.db.sweeps|
    ensures Arms(s.db, SweepStep(c, s, a).db, s.now)
  {
    if a.SweepResolve? && SweepStep(c, s, a) != s {
      TryCloseStill(s.db, s.sweepers[a.sweeper].todo[0], ByDeadline);
    }
  }

  lemma NextArms(c: Config, s: State, a: Action)
    requires RunWaits.Inv(s) && Inv(s) && !(a.Sweep? && a.sweep.SweepAck?)
    ensures Arms(s.db, Next(c, s, a).db, s.now)
  {
    match a
    case Api(x) =>
      ApiStill(s, x);
      StillArms(s.db, ApiStep(s, x).db, s.now);
    case Work(x) => WorkArms(s, x);
    case Sweep(x) => SweepArms(c, s, x);
    case Tick(_) => StillArms(s.db, s.db, s.now);
  }

  /**
    Exactly when a step takes the last sweep from a wait that stays open: it
    acknowledges that sweep; and then the wait was skipped while it was locked.
   */
  lemma DeadlineLostExactlyWhen(c: Config, acts: seq<Action>, a: Action, w: WaitId)
    requires c.Valid() && IsOpen(Next(c, Exec(c, acts), a).db, w)
    requires w in Exec(c, acts).db.waits ==> Covered(Exec(c, acts).db, w)
    ensures var s := Exec(c, acts);
            && (!Covered(Next(c, s, a).db, w) <==> AcksLastSweep(s, w, a))
            && (AcksLastSweep(s, w, a) ==> w in s.skipped)
  {
    var s := Exec(c, acts);
    RunWaits.ExecInv(c, acts);
    ExecInv(c, acts);
    NextInv(c, s, a);
    if a.Sweep? && a.sweep.SweepAck? {
      AckLoses(s, a.sweep.sweeper, w);
      assert Guarded(Next(c, s, a), w) ==> Covered(Next(c, s, a).db, w);
    } else {
      NextArms(c, s, a);
      NextEvolves(c, s, a);
      ArmsCovers(s.db, Next(c, s, a).db, s.now, w);
    }
  }

  ghost predicate LosesAt(c: Config, acts: seq<Action>, w: WaitId, i: int)
    requires 0 <= i < |acts|
  {
    AcksLastSweep(Exec(c, acts[..i]), w, acts[i])
  }

  lemma StaysCovered(c: Config, acts: seq<Action>, a: Action, w: WaitId)
    requires c.Valid() && !AcksLastSweep(Exec(c, acts), w, a) && IsOpen(Next(c, Exec(c, acts), a).db, w)
    requires IsOpen(Exec(c, acts).db, w) ==> Covered(Exec(c, acts).db, w)
    ensures Covered(Next(c, Exec(c, acts), a).db, w)
  {
    var s := Exec(c, acts);
    NextEvolves(c, s, a);
    if w in s.db.waits { assert WaitEvolves(s.db.waits[w], Next(c, s, a).db.waits[w]); }
    DeadlineLostExactlyWhen(c, acts, a, w);
  }

  /** So in a run without such a step every open wait is armed, skipped or not. */
  lemma {:induction false} OpenWaitsAreCovered(c: Config, acts: seq<Action>, w: WaitId)
    requires c.Valid() && forall i :: 0 <= i < |acts| ==> !LosesAt(c, acts, w, i)
    ensures IsOpen(Exec(c, acts).db, w) ==> Covered(Exec(c, acts).db, w)
    decreases |acts|
  {
    if acts != [] {
      var before, n := acts[..|acts| - 1], |acts| - 1;
      forall i | 0 <= i < |before| ensures !LosesAt(c, before, w, i) {
        assert before[..i] == acts[..i];
        assert !LosesAt(c, acts, w, i);
      }
      OpenWaitsAreCovered(c, before, w);
      assert !LosesAt(c, acts, w, n);
      if IsOpen(Next(c, Exec(c, before), acts[n]).db, w) { StaysCovered(c, before, acts[n], w); }
    }
  }
}

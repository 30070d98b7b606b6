/**
  Waits claimed for their deadline.  A sweep takes due waits out of open in one
  transaction and resolves them in later ones; what becomes of them in between
  is decided here: which steps resume one, and which steps strand it for good.
 */
module RunStranding {
  import opened Options
  import opened RunTables
  import opened RunMachine
  import opened RunWaits
  import RunOrphans
  import RunHistory

  predicate InHand(s: State, k: nat, w: WaitId) {
    k in s.sweepers && s.sweepers[k].Resolving? && w in s.sweepers[k].todo
  }

  /** A wait claimed for its deadline that no sweeper has in hand any more and that was not resumed. */
  ghost predicate Stranded(s: State, w: WaitId) {
    && w in s.db.waits && s.db.waits[w].state.TimedOut? && !s.db.waits[w].resumed
    && (forall k {:trigger InHand(s, k, w)} :: !InHand(s, k, w))
  }

  /** No wait is in the hands of two sweepers. */
  ghost predicate Disjoint(s: State) {
    forall k, l, w {:trigger InHand(s, k, w), InHand(s, l, w)} :: InHand(s, k, w) && InHand(s, l, w) ==> k == l
  }

  // ---------------------------------------------------------------- workers and handlers

  /** From a to b the row of a closed wait w is untouched, and w is not timed out anew. */
  predicate Leaves(a: Db, b: Db, w: WaitId) {
    && (w in a.waits && !a.waits[w].state.Open? ==> w in b.waits && b.waits[w] == a.waits[w])
    && (w in b.waits && b.waits[w].state.TimedOut? ==> w in a.waits && a.waits[w].state.TimedOut?)
  }

  lemma {:induction false} ResolveAllLeaves(db: Db, ws: seq<WaitId>, w: WaitId)
    ensures w in ResolveAll(db, ws).waits <==> w in db.waits
    ensures w in db.waits ==>
              var after := ResolveAll(db, ws).waits[w];
              (w !in ws ==> after == db.waits[w]) && (after.state.TimedOut? ==> db.waits[w].state.TimedOut?)
    decreases |ws|
  {
    if ws != [] {
      if Closable(db, ws[0], ByChild) { TryCloseShape(db, ws[0], ByChild); }
      ResolveAllLeaves(TryClose(db, ws[0], ByChild), ws[1..], w);
    }
  }

  lemma SettleLeaves(a: Db, b: Db, r: RunId, order: seq<WaitId>, w: WaitId)
    requires b.waits == a.waits && Lists(a, r, order)
    ensures Leaves(a, Settle(b, r, order), w)
  {
    ResolveAllLeaves(Abandon(b, r), order, w);
  }

  lemma StopLeaves(db: Db, r: RunId, reason: string, text: string, order: seq<WaitId>, w: WaitId)
    requires Lists(db, r, order)
    ensures Leaves(db, CancelTx(db, r, order), w) && Leaves(db, FailTx(db, r, reason, order), w)
    ensures r in db.runs ==> Leaves(db, FinishTx(db, r, text, order), w)
  {
    SettleLeaves(db, Append(SetState(db, r, Cancelled, ""), RunCancelled(r, true)), r, order, w);
    SettleLeaves(db, Append(SetState(db, r, Failed, reason), RunFailed(r)), r, order, w);
    if r in db.runs {
      var done := PutRun(db, r, db.runs[r].(state := Completed, failure := "", result := text));
      SettleLeaves(db, Append(done, RunCompleted(r)), r, order, w);
    }
  }

  lemma ClassifyLeaves(db: Db, r: RunId, step: nat, out: StepOutcome, now: Time, order: seq<WaitId>, w: WaitId)
    requires r in db.runs && db.runs[r].state.Running? && Lists(db, r, order)
    requires out.Park? ==> WaitId(r, step, out.call) !in db.waits
    requires ClassifyTx(db, r, step, out, now, order).Committed?
    ensures Leaves(db, ClassifyTx(db, r, step, out, now, order).value, w)
  {
    match out
    case Park(call, members, timeout, policy) =>
      var v := WaitId(r, step, call);
      var created := PutWait(db, v, Wait(Open, members, now + timeout, policy, false, None));
      RunHistory.ParkTxCases(db, r, step, out, now);
      if Closable(created, v, ByChild) { TryCloseShape(created, v, ByChild); }
    case Finish(text) => StopLeaves(db, r, "", text, order, w);
    case _ =>
  }

  lemma CommitLeaves(s: State, k: nat, body: seq<string>, out: StepOutcome, order: seq<WaitId>, w: WaitId)
    requires RunWaits.Inv(s) && Executes(s, k) && Lists(s.db, JobOf(s, k).run, order)
    requires CommitTx(s.db, JobOf(s, k), s.workers[k].history, body, out, s.now, order).Committed?
    ensures Leaves(s.db, CommitTx(s.db, JobOf(s, k), s.workers[k].history, body, out, s.now, order).value, w)
  {
    var job := JobOf(s, k);
    assert RunOrphans.JobOk(s.db, s.db.jobs[s.workers[k].job]);
    if s.db.runs[job.run].cancelRequested {
      StopLeaves(s.db, job.run, "", "", order, w);
    } else {
      var recorded := RecordStep(s.db, job, s.workers[k].history, body);
      FreshWait(s.db, job, if out.Park? then out.call else "");
      assert Lists(recorded, job.run, order);
      ClassifyLeaves(recorded, job.run, job.step, out, s.now, order, w);
    }
  }

  lemma WorkLeaves(s: State, a: WorkAction, w: WaitId)
    requires RunWaits.Inv(s)
    ensures Leaves(s.db, WorkStep(s, a).db, w)
  {
    if WorkStep(s, a).db != s.db {
      match a
      case Claim(k, job, order) => StopLeaves(s.db, s.db.jobs[job].run, "", "", order, w);
      case Commit(k, body, out, order) => CommitLeaves(s, k, body, out, order, w);
      case Fail(k, reason, order) => StopLeaves(s.db, JobOf(s, k).run, reason, "", order, w);
      case StreamCancel(k, order) => StopLeaves(s.db, JobOf(s, k).run, "", "", order, w);
      case _ =>
    }
  }

  lemma ApiLeaves(s: State, a: ApiAction, w: WaitId)
    ensures Leaves(s.db, ApiStep(s, a).db, w)
  {
  }

  /** A step that is not a sweeper's leaves claimed waits to whoever has them in hand. */
  lemma OthersLeave(c: Config, s: State, a: Action, w: WaitId)
    requires RunWaits.Inv(s) && !a.Sweep?
    ensures Leaves(s.db, Next(c, s, a).db, w) && Next(c, s, a).sweepers == s.sweepers
  {
    match a
    case Api(x) => ApiLeaves(s, x, w);
    case Work(x) => WorkLeaves(s, x, w);
    case Tick(_) =>
  }

  // ---------------------------------------------------------------- sweepers

  lemma NextDisjoint(c: Config, s: State, a: Action)
    requires SweepersHold(s) && Disjoint(s)
    ensures Disjoint(Next(c, s, a))
  {
    var t := Next(c, s, a);
    if !a.Sweep? { RunWaits.SweepersRest(c, s, a); }
    forall k, w | InHand(t, k, w) ensures InHand(s, k, w) || IsOpen(s.db, w) {
    }
    forall k, w | InHand(s, k, w) ensures !IsOpen(s.db, w) {
      assert w in s.sweepers[k].todo;
    }
    forall k, l, w | InHand(t, k, w) && InHand(t, l, w) ensures k == l {
      if !InHand(s, k, w) || !InHand(s, l, w) { assert IsOpen(s.db, w); }
    }
  }

  lemma {:induction false} ExecDisjoint(c: Config, acts: seq<Action>)
    ensures Disjoint(Exec(c, acts))
    decreases |acts|
  {
    if acts != [] {
      RunWaits.ExecInv(c, acts[..|acts| - 1]);
      ExecDisjoint(c, acts[..|acts| - 1]);
      NextDisjoint(c, Exec(c, acts[..|acts| - 1]), acts[|acts| - 1]);
    }
  }

  /** The sweeper that has w in hand gives up or dies before w's turn. */
  ghost predicate Interrupts(s: State, w: WaitId, a: Action) {
    && a.Sweep? && (a.sweep.SweepFail? || a.sweep.SweepCrash?) && InHand(s, a.sweep.sweeper, w)
    && w in s.db.waits && !s.db.waits[w].resumed
  }

  lemma ResolvesFirst(s: State, k: nat)
    requires SweepersHold(s) && k in s.sweepers && s.sweepers[k].Resolving? && s.sweepers[k].todo != []
    ensures var v := s.sweepers[k].todo[0];
            && v in s.db.waits
            && var result := Settlement(s.db, s.db.waits[v], ByDeadline);
               SweepResolveStep(s, k).db.waits ==
                 s.db.waits[v := s.db.waits[v].(result := Some(result), resumed := true)]
  {
    var v := s.sweepers[k].todo[0];
    assert v in s.sweepers[k].todo;
    TryCloseShape(s.db, v, ByDeadline);
  }

  lemma SweepStrands(c: Config, s: State, a: SweepAction, w: WaitId)
    requires SweepersHold(s) && Disjoint(s) && !Stranded(s, w)
    ensures Stranded(SweepStep(c, s, a), w) <==> Interrupts(s, w, Sweep(a))
  {
    var t := SweepStep(c, s, a);
    if a.SweepResolve? && t != s { ResolvesFirst(s, a.sweeper); }
    if Interrupts(s, w, Sweep(a)) {
      assert w in s.sweepers[a.sweeper].todo;
      forall k ensures !InHand(t, k, w) {
        assert InHand(t, k, w) ==> InHand(s, k, w);
      }
    } else if k :| InHand(s, k, w) {
      assert InHand(t, k, w) || (w in t.db.waits && t.db.waits[w].resumed);
    } else if a.SweepClaim? && t != s && w in a.due {
      assert InHand(t, a.sweeper, w);
    }
  }

  // ---------------------------------------------------------------- theorems

  /**
    Exactly when a claimed wait is stranded: the sweeper that has it in hand
    fails on some resolution or dies while the wait is not resumed.
   */
  lemma StrandedExactlyWhen(c: Config, acts: seq<Action>, a: Action, w: WaitId)
    requires !Stranded(Exec(c, acts), w)
    ensures Stranded(Next(c, Exec(c, acts), a), w) <==> Interrupts(Exec(c, acts), w, a)
  {
    var s := Exec(c, acts);
    RunWaits.ExecInv(c, acts);
    ExecDisjoint(c, acts);
    if a.Sweep? {
      SweepStrands(c, s, a.sweep, w);
    } else {
      OthersLeave(c, s, a, w);
      forall k ensures InHand(Next(c, s, a), k, w) <==> InHand(s, k, w) {}
    }
  }

  /** Exactly when it is resumed: the sweeper that has it in hand comes to it. */
  lemma ResumedExactlyWhen(c: Config, acts: seq<Action>, a: Action, w: WaitId)
    requires var db := Exec(c, acts).db; w in db.waits && db.waits[w].state.TimedOut? && !db.waits[w].resumed
    ensures var s := Exec(c, acts);
            && w in Next(c, s, a).db.waits
            && (Next(c, s, a).db.waits[w].resumed <==>
                  && a.Sweep? && a.sweep.SweepResolve?
                  && InHand(s, a.sweep.sweeper, w) && s.sweepers[a.sweep.sweeper].todo[0] == w)
  {
    var s := Exec(c, acts);
    RunWaits.ExecInv(c, acts);
    if !a.Sweep? {
      OthersLeave(c, s, a, w);
    } else if a.sweep.SweepResolve? && Next(c, s, a) != s {
      ResolvesFirst(s, a.sweep.sweeper);
    }
  }

  /** In a run without an interruption every timed-out wait is resumed or still in a sweeper's hands. */
  lemma {:induction false} ClaimedIsHandled(c: Config, acts: seq<Action>, w: WaitId)
    requires forall i :: 0 <= i < |acts| ==> !Interrupts(Exec(c, acts[..i]), w, acts[i])
    ensures !Stranded(Exec(c, acts), w)
    decreases |acts|
  {
    if acts != [] {
      var before, n := acts[..|acts| - 1], |acts| - 1;
      forall i | 0 <= i < |before| ensures !Interrupts(Exec(c, before[..i]), w, before[i]) {
        assert before[..i] == acts[..i];
        assert !Interrupts(Exec(c, acts[..i]), w, acts[i]);
      }
      ClaimedIsHandled(c, before, w);
      assert !Interrupts(Exec(c, acts[..n]), w, acts[n]);
      StrandedExactlyWhen(c, before, acts[n], w);
    }
  }

  lemma StrandedStays(c: Config, s: State, a: Action, w: WaitId)
    requires RunWaits.Inv(s) && Stranded(s, w)
    ensures Stranded(Next(c, s, a), w)
  {
    var t := Next(c, s, a);
    if !a.Sweep? {
      OthersLeave(c, s, a, w);
    } else if a.sweep.SweepResolve? && t != s {
      ResolvesFirst(s, a.sweep.sweeper);
      assert InHand(s, a.sweep.sweeper, s.sweepers[a.sweep.sweeper].todo[0]);
    }
    forall k ensures !InHand(t, k, w) {
      assert InHand(t, k, w) ==> InHand(s, k, w) || IsOpen(s.db, w);
    }
  }

  /** No later step, sweeps included, ever resumes a stranded wait. */
  lemma {:induction false} StrandedForever(c: Config, acts: seq<Action>, i: nat, w: WaitId)
    requires i <= |acts| && Stranded(Exec(c, acts[..i]), w)
    ensures Stranded(Exec(c, acts), w)
    decreases |acts|
  {
    if i == |acts| {
      assert acts[..i] == acts;
    } else {
      var before := acts[..|acts| - 1];
      assert before[..i] == acts[..i];
      StrandedForever(c, before, i, w);
      RunWaits.ExecInv(c, before);
      StrandedStays(c, Exec(c, before), acts[|acts| - 1], w);
    }
  }
}

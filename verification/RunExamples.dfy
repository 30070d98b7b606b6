/**
  Concrete runs of the machine.  They show what the code does not promise: each
  one reaches a state that the corresponding theorem's condition excludes.
 */
module RunExamples {
  import opened Options
  import opened RunTables
  import opened RunMachine
  import opened RunTally
  import opened RunWaits
  import opened RunStranding

  const P: RunId := "p"
  const C: RunId := "c"
  const W := WaitId(P, 0, "call")
  const SETTINGS := Config(32, 2000)

  ghost predicate Reachable(s: State) {
    exists acts :: Exec(SETTINGS, acts) == s
  }

  lemma Then(s: State, a: Action, t: State)
    requires Reachable(s) && Next(SETTINGS, s, a) == t
    ensures Reachable(t)
  {
    var acts :| Exec(SETTINGS, acts) == s;
    assert (acts + [a])[..|acts|] == acts;
    assert Exec(SETTINGS, acts + [a]) == t;
  }

  // ---------------------------------------------------------------- a parent parked on one child

  const PARK := Park("call", [C], 1000, ResolvePartial)

  const CHILD := NewRun("help")
  const PARENT := Run(Awaiting, false, [Prompt("go"), Turn(0, ["calling"])], [0], "", "")
  const WAIT := Wait(Open, [C], 1000, ResolvePartial, false, None)
  const PARK_LOG: seq<Event> := [
    RunStarted(P, "go"), RunSpawned(P, C, "help"), StepFinished(P, 0, ["calling"]), RunAwaiting(P)]

  const PARKED := State(
    Db(map[P := PARENT, C := CHILD], map[W := WAIT], [StepJob(P, 0, ByStart), StepJob(C, 0, ByStart)], {0, 1},
       [1250], {0}, PARK_LOG),
    0, map[0 := Acking(0)], map[], {})

  const SPAWNED := State(
    Db(map[P := Run(Running, false, [Prompt("go")], [], "", ""), C := CHILD], map[],
       [StepJob(P, 0, ByStart), StepJob(C, 0, ByStart)], {0, 1}, [], {}, PARK_LOG[..2]),
    0, map[0 := Executing(0, [Prompt("go")])], map[], {})

  const STARTED := State(
    Db(map[P := NewRun("go")], map[], [StepJob(P, 0, ByStart)], {0}, [], {}, [RunStarted(P, "go")]),
    0, map[], map[], {})

  const CLAIMED := State(
    Db(map[P := NewRun("go").(state := Running)], map[], [StepJob(P, 0, ByStart)], {0}, [], {}, [RunStarted(P, "go")]),
    0, map[0 := Executing(0, [Prompt("go")])], map[], {})

  lemma ClaimedRun()
    ensures Reachable(CLAIMED)
  {
    assert Exec(SETTINGS, []) == INIT;
    Then(INIT, Api(Start(P, "go")), STARTED);
    Then(STARTED, Work(Claim(0, 0, [])), CLAIMED);
  }

  lemma SpawnedRun()
    ensures Reachable(SPAWNED)
  {
    ClaimedRun();
    Then(CLAIMED, Work(Spawn(0, C, "help")), SPAWNED);
  }

  lemma ParkCommit()
    ensures CommitTx(SPAWNED.db, StepJob(P, 0, ByStart), [Prompt("go")], ["calling"], PARK, 0, []) ==
              Committed(PARKED.db)
  {
    var recorded := RecordStep(SPAWNED.db, StepJob(P, 0, ByStart), [Prompt("go")], ["calling"]);
    var created := PutWait(recorded, W, WAIT);
    assert Tally(created, [C], 1) == Tally(created, [C], 0).(pending := 1);
    assert !Closable(created, W, ByChild);
    assert TryClose(created, W, ByChild) == created;
    var parked := ParkRows(created, P, 1000);
    assert parked.log == PARK_LOG;
    assert parked.runs[P].history == PARENT.history && parked.runs[P].steps == PARENT.steps;
    assert parked.runs == PARKED.db.runs;
    assert parked == PARKED.db;
  }

  lemma ParkedRun()
    ensures Reachable(PARKED)
  {
    SpawnedRun();
    ParkCommit();
    assert Lists(SPAWNED.db, P, []);
    Then(SPAWNED, Work(Commit(0, ["calling"], PARK, [])), PARKED);
  }

  // ---------------------------------------------------------------- a handler's cancellation loses a wake-up

  const CHILD_CLAIMED := PARKED.(
    db := PARKED.db.(runs := map[P := PARENT, C := CHILD.(state := Running)]),
    workers := map[0 := Acking(0), 1 := Executing(1, [Prompt("help")])])

  lemma ChildClaimed()
    ensures Next(SETTINGS, PARKED, Work(Claim(1, 1, [W]))) == CHILD_CLAIMED
    ensures Lists(CHILD_CLAIMED.db, C, [W])
  {
    assert Lists(PARKED.db, C, [W]);
    assert ClaimTx(PARKED.db, StepJob(C, 0, ByStart), [W]) == Claimed(CHILD_CLAIMED.db, [Prompt("help")]);
  }

  const CHILD_ASKS := Work(Commit(1, ["asking"], Ask, [W]))

  lemma ChildAsks()
    ensures var s := Next(SETTINGS, CHILD_CLAIMED, CHILD_ASKS);
            s.db.waits == map[W := WAIT] && C in s.db.runs && s.db.runs[C].state.Awaiting?
  {
    ChildClaimed();
    assert CommitTx(CHILD_CLAIMED.db, StepJob(C, 0, ByStart), [Prompt("help")], ["asking"], Ask, 0, [W]).Committed?;
  }

  lemma CancelOfChild(s: State)
    requires s.db.waits == map[W := WAIT] && C in s.db.runs && s.db.runs[C].state.Awaiting?
    ensures var db := Next(SETTINGS, s, Api(CancelRun(C))).db;
            IsOpen(db, W) && forall m :: m in db.waits[W].members ==> IsTerminal(db, m)
  {
  }

  /** The child awaits an answer, the API cancels it, and the parent's wait stays open over nobody. */
  lemma LostWakeUp()
    ensures exists s :: Reachable(s) && IsOpen(s.db, W)
                        && forall m :: m in s.db.waits[W].members ==> IsTerminal(s.db, m)
  {
    ParkedRun();
    ChildClaimed();
    Then(PARKED, Work(Claim(1, 1, [W])), CHILD_CLAIMED);
    var s := Next(SETTINGS, CHILD_CLAIMED, CHILD_ASKS);
    ChildAsks();
    Then(CHILD_CLAIMED, CHILD_ASKS, s);
    CancelOfChild(s);
    Then(s, Api(CancelRun(C)), Next(SETTINGS, s, Api(CancelRun(C))));
  }

  // ---------------------------------------------------------------- an interrupted sweep strands the parent

  const LATE := PARKED.(now := 1250)

  const CLAIMED_WAIT := LATE.(
    db := LATE.db.(waits := map[W := WAIT.(state := TimedOut)]),
    sweepers := map[0 := Resolving(0, 1250, [W], false)])

  lemma SweepTakes()
    ensures Next(SETTINGS, LATE, Sweep(SweepClaim(0, 0, [W], {}))) == CLAIMED_WAIT
  {
    assert IsBatch(LATE.db, 1250, 32, [W], {});
    assert ClaimDueTx(LATE.db, [W]).waits == map[W := WAIT.(state := TimedOut)];
  }

  lemma LateRun()
    ensures Reachable(LATE)
  {
    ParkedRun();
    Then(PARKED, Tick(1250), LATE);
  }

  /** A sweeper that dies between claiming and resolving leaves a wait that nothing resumes. */
  lemma Stranding()
    ensures exists s :: Reachable(s) && Stranded(s, W) && P in s.db.runs && s.db.runs[P].state.Awaiting?
  {
    LateRun();
    SweepTakes();
    Then(LATE, Sweep(SweepClaim(0, 0, [W], {})), CLAIMED_WAIT);
    var s := CLAIMED_WAIT.(sweepers := map[]);
    Then(CLAIMED_WAIT, Sweep(SweepCrash(0)), s);
    assert Stranded(s, W);
  }

  // ---------------------------------------------------------------- a locked row loses its deadline

  const D: RunId := "d"
  const PAIR := PARK.(members := [C, D])
  const PAIR_WAIT := WAIT.(members := [C, D])
  const PAIR_JOBS: seq<StepJob> := [StepJob(P, 0, ByStart), StepJob(C, 0, ByStart), StepJob(D, 0, ByStart)]

  const PAIR_LOG: seq<Event> := [
    RunStarted(P, "go"), RunSpawned(P, C, "help"), RunSpawned(P, D, "more"),
    StepFinished(P, 0, ["calling"]), RunAwaiting(P)]

  const PAIR_SPAWNED := State(
    Db(map[P := Run(Running, false, [Prompt("go")], [], "", ""), C := CHILD, D := NewRun("more")], map[],
       PAIR_JOBS, {0, 1, 2}, [], {}, PAIR_LOG[..3]),
    0, map[0 := Executing(0, [Prompt("go")])], map[], {})

  const PAIR_PARKED := State(
    Db(map[P := PARENT, C := CHILD, D := NewRun("more")], map[W := PAIR_WAIT], PAIR_JOBS, {0, 1, 2},
       [1250], {0}, PAIR_LOG),
    0, map[0 := Acking(0)], map[], {})

  /** The deadline has passed and one of the two children is executing what will be its last step. */
  const PAIR_LATE := PAIR_PARKED.(
    db := PAIR_PARKED.db.(runs := map[P := PARENT, C := CHILD.(state := Running), D := NewRun("more")]),
    now := 1250, workers := map[0 := Acking(0), 1 := Executing(1, [Prompt("help")])])

  lemma PairCommit()
    ensures CommitTx(PAIR_SPAWNED.db, StepJob(P, 0, ByStart), [Prompt("go")], ["calling"], PAIR, 0, []) ==
              Committed(PAIR_PARKED.db)
  {
    var recorded := RecordStep(PAIR_SPAWNED.db, StepJob(P, 0, ByStart), [Prompt("go")], ["calling"]);
    var created := PutWait(recorded, W, PAIR_WAIT);
    TallyPending(created, [C, D], 2);
    assert !IsTerminal(created, [C, D][0]);
    assert !Closable(created, W, ByChild);
    assert TryClose(created, W, ByChild) == created;
    var parked := ParkRows(created, P, 1000);
    assert parked.log == PAIR_LOG;
    assert parked.runs[P].history == PARENT.history && parked.runs[P].steps == PARENT.steps;
    assert parked.runs == PAIR_PARKED.db.runs;
    assert parked == PAIR_PARKED.db;
  }

  lemma PairSpawned()
    ensures Reachable(PAIR_SPAWNED)
  {
    SpawnedRun();
    Then(SPAWNED, Work(Spawn(0, D, "more")), PAIR_SPAWNED);
  }

  lemma PairParked()
    ensures Reachable(PAIR_PARKED)
  {
    PairSpawned();
    PairCommit();
    assert Lists(PAIR_SPAWNED.db, P, []);
    Then(PAIR_SPAWNED, Work(Commit(0, ["calling"], PAIR, [])), PAIR_PARKED);
  }

  lemma PairLate()
    ensures Reachable(PAIR_LATE)
  {
    PairParked();
    assert Lists(PAIR_PARKED.db, C, [W]);
    var s := PAIR_LATE.(now := 0);
    assert ClaimTx(PAIR_PARKED.db, StepJob(C, 0, ByStart), [W]) == Claimed(s.db, [Prompt("help")]);
    Then(PAIR_PARKED, Work(Claim(1, 1, [W])), s);
    Then(s, Tick(1250), PAIR_LATE);
  }

  /** The finishing child's transaction has the wait's row locked while the sweep looks for due rows. */
  const PASSED_OVER := PAIR_LATE.(sweepers := map[0 := Resolving(0, 1250, [], false)], skipped := {W})

  lemma SweepPasses()
    ensures Next(SETTINGS, PAIR_LATE, Sweep(SweepClaim(0, 0, [], {W}))) == PASSED_OVER
  {
    assert IsBatch(PAIR_LATE.db, 1250, 32, [], {W});
    assert ClaimDueTx(PAIR_LATE.db, []).waits == PAIR_LATE.db.waits;
  }

  lemma StaysOpen(db: Db)
    requires db.waits == map[W := PAIR_WAIT] && D in db.runs && !IsTerminal(db, D)
    ensures Abandon(db, C) == db && ResolveAll(db, [W]) == db
  {
    assert Abandon(db, C).waits == db.waits;
    TallyPending(db, [C, D], 2);
    assert !IsTerminal(db, [C, D][1]);
    assert TryClose(db, W, ByChild) == db;
  }

  const ONE_ENDS := Work(Commit(1, ["done"], Finish("ok"), [W]))

  /** That transaction commits and leaves the wait open over the other child. */
  lemma OneEnds()
    ensures var s := Next(SETTINGS, PASSED_OVER, ONE_ENDS);
            && s.db.waits == map[W := PAIR_WAIT] && s.db.sweeps == [1250] && s.db.liveSweeps == {0}
            && IsTerminal(s.db, C) && D in s.db.runs && !IsTerminal(s.db, D)
            && s.sweepers == PASSED_OVER.sweepers && s.now == 1250
  {
    assert Lists(PASSED_OVER.db, C, [W]);
    var recorded := RecordStep(PASSED_OVER.db, StepJob(C, 0, ByStart), [Prompt("help")], ["done"]);
    var run := recorded.runs[C].(state := Completed, failure := "", result := "ok");
    var ended := Append(PutRun(recorded, C, run), RunCompleted(C));
    StaysOpen(ended);
    assert CommitTx(PASSED_OVER.db, StepJob(C, 0, ByStart), [Prompt("help")], ["done"], Finish("ok"), 1250, [W])
        == Committed(ended);
  }

  lemma SweepEnds(s: State)
    requires s.db.liveSweeps == {0} && s.sweepers == PASSED_OVER.sweepers
    ensures var t := Next(SETTINGS, Next(SETTINGS, s, Sweep(SweepDone(0))), Sweep(SweepAck(0)));
            t == s.(db := s.db.(liveSweeps := {}), sweepers := map[])
  {
    var u := s.(sweepers := map[0 := SweepAcking(0, 1250)]);
    assert s.sweepers[0 := SweepAcking(0, 1250)] == u.sweepers;
    assert Next(SETTINGS, s, Sweep(SweepDone(0))) == u;
    assert u.sweepers - {0} == map[];
  }

  /**
    A sweep comes for a wait while one of its members is finishing: that member's
    transaction holds the row, the sweep passes it over, the transaction leaves
    the wait open over the other member, and no sweep is left for it.
   */
  lemma SkippedDeadline()
    ensures exists s :: Reachable(s) && Executes(s, 1) && JobOf(s, 1).run == C
                        && W in s.db.waits && C in s.db.waits[W].members
                        && var t := Next(SETTINGS, s, ONE_ENDS);
                           var u := Next(SETTINGS, Next(SETTINGS, t, Sweep(SweepDone(0))), Sweep(SweepAck(0)));
                           && IsTerminal(t.db, C) && IsOpen(u.db, W) && u.db.waits[W].deadline < u.now
                           && u.db.liveSweeps == {}
  {
    PairLate();
    SweepPasses();
    Then(PAIR_LATE, Sweep(SweepClaim(0, 0, [], {W})), PASSED_OVER);
    OneEnds();
    SweepEnds(Next(SETTINGS, PASSED_OVER, ONE_ENDS));
    assert Executes(PASSED_OVER, 1) && JobOf(PASSED_OVER, 1).run == C;
  }

  // ---------------------------------------------------------------- an answer loses a wait outcome

  const COPY: seq<Entry> := [Prompt("go"), Turn(0, ["calling"]), Answer("hurry")]

  const RACING := State(
    Db(map[P := PARENT.(state := Running, history := COPY), C := CHILD.(state := Running)], map[W := WAIT],
       [StepJob(P, 0, ByStart), StepJob(C, 0, ByStart), StepJob(P, 1, ByAnswer)], {0, 1, 2},
       [1250], {0}, PARK_LOG + [UserMessage(P, "hurry", true)]),
    0, map[0 := Acking(0), 1 := Executing(1, [Prompt("help")]), 2 := Executing(2, COPY)], map[], {})

  const ANSWERED := RACING.(
    db := RACING.db.(runs := map[P := PARENT.(state := Running, history := COPY), C := CHILD]),
    workers := map[0 := Acking(0)])

  lemma AnswerArrives()
    ensures Next(SETTINGS, PARKED, Api(AnswerRun(P, "hurry"))) == ANSWERED
  {
    assert HoldsUnresumedWait(PARKED.db, P) by { assert W in PARKED.db.waits; }
    assert NextStep([0]) == 1;
    assert PARENT.history + [Answer("hurry")] == COPY;
    var db := AnswerTx(PARKED.db, P, "hurry").value;
    assert db.runs == ANSWERED.db.runs && db.jobs == ANSWERED.db.jobs && db.log == ANSWERED.db.log;
  }

  const RESUMED := ANSWERED.(workers := map[0 := Acking(0), 2 := Executing(2, COPY)])

  lemma ParentResumes()
    ensures Reachable(RESUMED)
  {
    ParkedRun();
    AnswerArrives();
    Then(PARKED, Api(AnswerRun(P, "hurry")), ANSWERED);
    assert Lists(ANSWERED.db, P, []);
    Then(ANSWERED, Work(Claim(2, 2, [])), RESUMED);
  }

  lemma ChildResumes()
    ensures Next(SETTINGS, RESUMED, Work(Claim(1, 1, [W]))) == RACING
  {
    assert Lists(RESUMED.db, C, [W]);
    assert ClaimTx(RESUMED.db, StepJob(C, 0, ByStart), [W]) == Claimed(RACING.db, [Prompt("help")]);
  }

  lemma BothClaim()
    ensures Reachable(RACING)
  {
    ParentResumes();
    ChildResumes();
    Then(RESUMED, Work(Claim(1, 1, [W])), RACING);
  }

  const DONE := Outcome(Resolved, false, [MemberResult(0, C, Completed, "ok", "")], 1, 0, 0, 0)

  const CHILD_ENDS := Work(Commit(1, ["done"], Finish("ok"), [W]))

  lemma ChildResolves(db: Db)
    requires db.waits == map[W := WAIT] && P in db.runs && db.runs[P] == PARENT.(state := Running, history := COPY)
    requires C in db.runs && db.runs[C].state.Completed? && db.runs[C].result == "ok" && db.runs[C].failure == ""
    ensures var after := Settle(db, C, [W]);
            && after.runs == db.runs[P := db.runs[P].(history := COPY + [ToolResult(W, DONE, false)])]
            && after.log == db.log + [ToolResulted(W, DONE, false)]
            && after.jobs == db.jobs + [StepJob(P, 1, ByWait(W))]
            && forall w :: w in after.waits ==> !after.waits[w].state.Open?
  {
    assert Abandon(db, C).waits == db.waits;
    assert Abandon(db, C) == db;
    assert Tally(db, [C], 0) == NO_OUTCOME;
    assert Tally(db, [C], 1) == AddResult(NO_OUTCOME, ResultOf(db, 0, C));
    assert Settlement(db, WAIT, ByChild) == DONE;
    assert NextStep([0]) == 1;
    assert ResolveAll(db, [W]) == TryClose(db, W, ByChild);
  }

  /** The parent's outcome has arrived; worker 2 still holds the copy from before. */
  ghost predicate Overtaken(s: State) {
    && s.workers == RACING.workers[1 := Acking(1)]
    && P in s.db.runs && s.db.runs[P] == PARENT.(state := Running, history := COPY + [ToolResult(W, DONE, false)])
    && |s.db.jobs| == 4 && s.db.jobs[2] == StepJob(P, 1, ByAnswer)
    && ToolResulted(W, DONE, false) in s.db.log && Lists(s.db, P, [])
  }

  lemma ChildEnds()
    ensures Overtaken(Next(SETTINGS, RACING, CHILD_ENDS))
  {
    assert Lists(RACING.db, C, [W]);
    var recorded := RecordStep(RACING.db, StepJob(C, 0, ByStart), [Prompt("help")], ["done"]);
    var run := recorded.runs[C].(state := Completed, failure := "", result := "ok");
    var ended := Append(PutRun(recorded, C, run), RunCompleted(C));
    ChildResolves(ended);
    assert CommitTx(RACING.db, StepJob(C, 0, ByStart), [Prompt("help")], ["done"], Finish("ok"), 0, [W])
        == Committed(Settle(ended, C, [W]));
  }

  const LATE_COMMIT := Work(Commit(2, ["next"], Continue, []))

  lemma LateCommit(s: State)
    requires Overtaken(s)
    ensures var db := Next(SETTINGS, s, LATE_COMMIT).db;
            && ToolResulted(W, DONE, false) in db.log
            && P in db.runs && db.runs[P].history == COPY + [Turn(1, ["next"])]
  {
    assert JobOf(s, 2) == StepJob(P, 1, ByAnswer);
    assert CommitTx(s.db, JobOf(s, 2), COPY, ["next"], Continue, s.now, []).Committed?;
  }

  /**
    The outcome is injected while a step claimed through the answer is still
    executing; that step's commit writes its older copy back and the outcome is gone.
   */
  lemma LostOutcome()
    ensures exists s :: Reachable(s) && ToolResulted(W, DONE, false) in s.db.log
                        && P in s.db.runs && s.db.runs[P].history == COPY + [Turn(1, ["next"])]
  {
    BothClaim();
    ChildEnds();
    var s := Next(SETTINGS, RACING, CHILD_ENDS);
    Then(RACING, CHILD_ENDS, s);
    LateCommit(s);
    Then(s, LATE_COMMIT, Next(SETTINGS, s, LATE_COMMIT));
  }

  // ---------------------------------------------------------------- failed is not quite final

  const TWICE := CLAIMED.(workers := map[0 := Executing(0, [Prompt("go")]), 1 := Executing(0, [Prompt("go")])])

  lemma CancelSeen()
    ensures exists s :: Reachable(s) && P in s.db.runs && s.db.runs[P].state.Failed? && s.db.runs[P].cancelRequested
                        && s.db.waits == map[] && s.db.jobs == CLAIMED.db.jobs
                        && s.workers == TWICE.workers[0 := Acking(0)]
  {
    ClaimedRun();
    assert Lists(CLAIMED.db, P, []);
    Then(CLAIMED, Work(Claim(1, 0, [])), TWICE);
    var s := TWICE.(db := TWICE.db.(runs := map[P := NewRun("go").(state := Running, cancelRequested := true)]));
    Then(TWICE, Api(CancelRun(P)), s);
    assert Lists(s.db, P, []);
    var t := Next(SETTINGS, s, Work(Fail(0, "broke", [])));
    Then(s, Work(Fail(0, "broke", [])), t);
    assert t.db.waits == map[];
  }

  /** One delivery fails the run, the other sees the cancel flag and overwrites failed with cancelled. */
  lemma FailedThenCancelled()
    ensures exists s, a :: Reachable(s) && P in s.db.runs && s.db.runs[P].state.Failed?
                           && P in Next(SETTINGS, s, a).db.runs && Next(SETTINGS, s, a).db.runs[P].state.Cancelled?
  {
    CancelSeen();
    var s :| Reachable(s) && P in s.db.runs && s.db.runs[P].state.Failed? && s.db.runs[P].cancelRequested
             && s.db.waits == map[] && s.db.jobs == CLAIMED.db.jobs && s.workers == TWICE.workers[0 := Acking(0)];
    assert Lists(s.db, P, []);
    assert Next(SETTINGS, s, Work(StreamCancel(1, []))).db.runs[P].state.Cancelled?;
  }
}

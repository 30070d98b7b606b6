/**
  What a step of the machine does to the rows of runs, to the log and to the
  queue, said from the state before it and the action alone.  A step has a
  direct effect on at most one run; beyond that it delivers outcomes of waits,
  and every delivery is an event in the log.
 */
module RunEffects {
  import opened Options
  import opened RunTables
  import opened RunMachine
  import RunOrphans
  import RunTally
  import RunWaits

  // ---------------------------------------------------------------- conditions on the state before a step

  /** The step is a worker's, about the job of run r it executes. */
  predicate WorksOn(s: State, a: Action, r: RunId) {
    && a.Work? && (a.work.Commit? || a.work.Fail? || a.work.StreamCancel?)
    && Executes(s, a.work.worker) && JobOf(s, a.work.worker).run == r && r in s.db.runs
    && Lists(s.db, r, a.work.order)
  }

  /** A free worker is given a live job of run r. */
  predicate Takes(s: State, a: Action, r: RunId) {
    && a.Work? && a.work.Claim? && a.work.worker !in s.workers
    && a.work.job in s.db.live && a.work.job < |s.db.jobs| && s.db.jobs[a.work.job].run == r && r in s.db.runs
    && Lists(s.db, r, a.work.order)
  }

  /** A worker of run r finds its cancel flag set, when it claims, when it commits or while it streams. */
  predicate SeesFlag(s: State, a: Action, r: RunId) {
    && r in s.db.runs && s.db.runs[r].cancelRequested
    && var state := s.db.runs[r].state;
       || (Takes(s, a, r) && (state.Pending? || state.Running?))
       || (WorksOn(s, a, r) && a.work.Commit? && WellFormed(a.work.out) && state.Running?)
       || (WorksOn(s, a, r) && a.work.StreamCancel?)
  }

  predicate Fails(s: State, a: Action, r: RunId) {
    && WorksOn(s, a, r) && a.work.Fail?
    && var state := s.db.runs[r].state; state.Pending? || state.Running? || state.Awaiting?
  }

  /** A wait can be made: no other wait of its parent is open, and all its members exist. */
  predicate CanPark(s: State, r: RunId, out: StepOutcome) {
    out.Park? ==>
      && (forall w :: w in s.db.waits && w.parent == r ==> !s.db.waits[w].state.Open?)
      && (forall m :: m in out.members ==> m in s.db.runs)
  }

  /** A worker commits the next step of run r. */
  predicate Commits(s: State, a: Action, r: RunId) {
    && WorksOn(s, a, r) && a.work.Commit? && WellFormed(a.work.out)
    && s.db.runs[r].state.Running? && !s.db.runs[r].cancelRequested
    && JobOf(s, a.work.worker).step !in s.db.runs[r].steps
    && CanPark(s, r, a.work.out)
  }

  predicate Finishes(s: State, a: Action, r: RunId) { Commits(s, a, r) && a.work.out.Finish? }

  /** The children the step waits for have all ended already. */
  predicate AllEnded(s: State, members: seq<RunId>) {
    forall m :: m in members ==> IsTerminal(s.db, m)
  }

  /** The step leaves run r waiting: for an answer, or for children of which one has not ended. */
  predicate Parks(s: State, a: Action, r: RunId) {
    && Commits(s, a, r)
    && (a.work.out.Ask? || (a.work.out.Park? && !AllEnded(s, a.work.out.members)))
  }

  predicate IsAnswered(s: State, a: Action, r: RunId) {
    && a.Api? && a.api.AnswerRun? && a.api.run == r && r in s.db.runs
    && (s.db.runs[r].state.Awaiting? || s.db.runs[r].state.Completed?)
  }

  predicate Expires(s: State, a: Action, r: RunId) {
    a.Api? && a.api.ExpireRun? && a.api.run == r && r in s.db.runs && s.db.runs[r].state.Awaiting?
  }

  predicate FlagsRun(s: State, a: Action, r: RunId) {
    && a.Api? && a.api.CancelRun? && a.api.run == r && r in s.db.runs
    && var state := s.db.runs[r].state; state.Pending? || state.Running? || state.Awaiting?
  }

  /** A handler cancels run r itself. */
  predicate CancelledByHandler(s: State, a: Action, r: RunId) {
    Expires(s, a, r) || (FlagsRun(s, a, r) && s.db.runs[r].state.Awaiting?)
  }

  /** A worker ends run r. */
  predicate Ends(s: State, a: Action, r: RunId) {
    SeesFlag(s, a, r) || Fails(s, a, r) || Finishes(s, a, r)
  }

  predicate Begins(s: State, a: Action, r: RunId) {
    && Takes(s, a, r) && s.db.runs[r].state.Pending? && !s.db.runs[r].cancelRequested
    && s.db.jobs[a.work.job].step !in s.db.runs[r].steps
  }

  // ---------------------------------------------------------------- deliveries

  datatype Rows = Rows(runs: map<RunId, Run>, jobs: seq<StepJob>, log: seq<Event>)

  function RowsOf(db: Db): Rows { Rows(db.runs, db.jobs, db.log) }

  predicate OnlyOutcomes(events: seq<Event>) {
    forall i :: 0 <= i < |events| ==> events[i].ToolResulted?
  }

  /** What the events bring to run r. */
  function Delivered(events: seq<Event>, r: RunId): seq<Entry> {
    if events == [] then [] else
    var e := events[|events| - 1];
    Delivered(events[..|events| - 1], r)
    + if e.ToolResulted? && e.wait.parent == r then [ToolResult(e.wait, e.outcome, e.isError)] else []
  }

  function Receive(run: Run, entries: seq<Entry>): Run {
    if entries == [] then run else run.(history := run.history + entries, state := Running, failure := "")
  }

  /** The jobs that follow them: one each, for the next step of the parent. */
  function Followed(events: seq<Event>, runs: map<RunId, Run>): seq<StepJob> {
    if events == [] then [] else
    var e := events[|events| - 1];
    Followed(events[..|events| - 1], runs)
    + if e.ToolResulted? && e.wait.parent in runs
      then [StepJob(e.wait.parent, NextStep(runs[e.wait.parent].steps), ByWait(e.wait))] else []
  }

  /** From a to b nothing but outcomes is delivered. */
  ghost predicate Delivers(a: Rows, b: Rows) {
    && a.log <= b.log && a.runs.Keys == b.runs.Keys
    && var news := b.log[|a.log|..];
       && OnlyOutcomes(news)
       && b.jobs == a.jobs + Followed(news, a.runs)
       && (forall r {:trigger r in b.runs} :: r in a.runs ==>
             && b.runs[r] == Receive(a.runs[r], Delivered(news, r))
             && (a.runs[r].state.Terminal() ==> Delivered(news, r) == []))
  }

  lemma {:induction false} DeliveredAdds(x: seq<Event>, y: seq<Event>, r: RunId)
    ensures Delivered(x + y, r) == Delivered(x, r) + Delivered(y, r)
    decreases |y|
  {
    if y == [] {
      assert x + y == x;
    } else {
      assert (x + y)[..|x + y| - 1] == x + y[..|y| - 1];
      DeliveredAdds(x, y[..|y| - 1], r);
    }
  }

  lemma {:induction false} FollowedAdds(x: seq<Event>, y: seq<Event>, runs: map<RunId, Run>)
    ensures Followed(x + y, runs) == Followed(x, runs) + Followed(y, runs)
    decreases |y|
  {
    if y == [] {
      assert x + y == x;
    } else {
      assert (x + y)[..|x + y| - 1] == x + y[..|y| - 1];
      FollowedAdds(x, y[..|y| - 1], runs);
    }
  }

  lemma {:induction false} FollowedSame(events: seq<Event>, a: map<RunId, Run>, b: map<RunId, Run>)
    requires a.Keys == b.Keys && forall r :: r in a ==> a[r].steps == b[r].steps
    ensures Followed(events, a) == Followed(events, b)
    decreases |events|
  {
    if events != [] { FollowedSame(events[..|events| - 1], a, b); }
  }

  lemma DeliversNothing(a: Rows)
    ensures Delivers(a, a)
  {
    assert a.log[|a.log|..] == [];
  }

  lemma DeliversOn(a: Rows, b: Rows, d: Rows)
    requires Delivers(a, b) && Delivers(b, d)
    ensures Delivers(a, d)
  {
    var x, y := b.log[|a.log|..], d.log[|b.log|..];
    assert d.log[|a.log|..] == x + y;
    assert OnlyOutcomes(x + y);
    JobsFollowOn(a, b, x, y);
    forall r | r in a.runs
      ensures d.runs[r] == Receive(a.runs[r], Delivered(x + y, r))
      ensures a.runs[r].state.Terminal() ==> Delivered(x + y, r) == []
    {
      assert r in b.runs && r in d.runs;
      DeliveredAdds(x, y, r);
      ReceiveOn(a.runs[r], Delivered(x, r), Delivered(y, r));
    }
  }

  lemma ReceiveOn(run: Run, x: seq<Entry>, y: seq<Entry>)
    ensures Receive(Receive(run, x), y) == Receive(run, x + y)
  {
    assert run.history + x + y == run.history + (x + y);
    assert x == [] ==> x + y == y;
    assert y == [] ==> x + y == x;
  }

  lemma JobsFollowOn(a: Rows, b: Rows, x: seq<Event>, y: seq<Event>)
    requires Delivers(a, b) && x == b.log[|a.log|..]
    ensures b.jobs + Followed(y, b.runs) == a.jobs + Followed(x + y, a.runs)
  {
    forall r | r in a.runs ensures a.runs[r].steps == b.runs[r].steps { assert r in b.runs; }
    FollowedAdds(x, y, a.runs);
    FollowedSame(y, a.runs, b.runs);
  }

  // ---------------------------------------------------------------- closing waits delivers

  lemma ResumedRow(db: Db, w: WaitId, reason: CloseReason) returns (e: Event)
    requires Closable(db, w, reason) && Resumes(db, w)
    ensures e.ToolResulted? && e.wait == w && TryClose(db, w, reason).log == db.log + [e]
    ensures TryClose(db, w, reason).runs ==
              db.runs[w.parent := Receive(db.runs[w.parent], [ToolResult(w, e.outcome, e.isError)])]
  {
    RunWaits.TryCloseShape(db, w, reason);
    e := TryClose(db, w, reason).log[|db.log|];
  }

  lemma OneDelivered(e: Event, r: RunId, runs: map<RunId, Run>)
    requires e.ToolResulted?
    ensures Delivered([e], r) == if e.wait.parent == r then [ToolResult(e.wait, e.outcome, e.isError)] else []
    ensures e.wait.parent in runs ==>
              Followed([e], runs) == [StepJob(e.wait.parent, NextStep(runs[e.wait.parent].steps), ByWait(e.wait))]
  {
    assert [e][..0] == [];
  }

  lemma ResumeDelivers(db: Db, w: WaitId, reason: CloseReason)
    requires Closable(db, w, reason) && Resumes(db, w)
    ensures Delivers(RowsOf(db), RowsOf(TryClose(db, w, reason)))
  {
    var b := TryClose(db, w, reason);
    RunWaits.TryCloseShape(db, w, reason);
    var e := ResumedRow(db, w, reason);
    assert b.log[|db.log|..] == [e];
    forall r | r in db.runs
      ensures b.runs[r] == Receive(db.runs[r], Delivered([e], r))
      ensures db.runs[r].state.Terminal() ==> Delivered([e], r) == []
    {
      OneDelivered(e, r, db.runs);
    }
    OneDelivered(e, w.parent, db.runs);
  }

  lemma TryCloseDelivers(db: Db, w: WaitId, reason: CloseReason)
    ensures Delivers(RowsOf(db), RowsOf(TryClose(db, w, reason)))
  {
    if Closable(db, w, reason) && Resumes(db, w) {
      ResumeDelivers(db, w, reason);
    } else {
      if Closable(db, w, reason) { RunWaits.TryCloseShape(db, w, reason); }
      DeliversNothing(RowsOf(db));
    }
  }

  lemma {:induction false} ResolveAllDelivers(db: Db, ws: seq<WaitId>)
    ensures Delivers(RowsOf(db), RowsOf(ResolveAll(db, ws)))
    decreases |ws|
  {
    if ws == [] {
      DeliversNothing(RowsOf(db));
    } else {
      var b := TryClose(db, ws[0], ByChild);
      TryCloseDelivers(db, ws[0], ByChild);
      ResolveAllDelivers(b, ws[1..]);
      DeliversOn(RowsOf(db), RowsOf(b), RowsOf(ResolveAll(b, ws[1..])));
    }
  }

  lemma SettleDelivers(db: Db, r: RunId, order: seq<WaitId>)
    ensures Delivers(RowsOf(db), RowsOf(Settle(db, r, order)))
  {
    assert RowsOf(Abandon(db, r)) == RowsOf(db);
    ResolveAllDelivers(Abandon(db, r), order);
  }

  // ---------------------------------------------------------------- the direct effect

  function With(rows: Rows, r: RunId, run: Run, jobs: seq<StepJob>, events: seq<Event>): Rows {
    Rows(rows.runs[r := run], rows.jobs + jobs, rows.log + events)
  }

  function Fresh(prompt: string): Run { Run(Pending, false, [Prompt(prompt)], [], "", "") }

  /** The row a commit writes, before any outcome is delivered. */
  function Recorded(s: State, a: Action, r: RunId): Run
    requires Commits(s, a, r)
  {
    var run, job := s.db.runs[r], JobOf(s, a.work.worker);
    run.(history := s.workers[a.work.worker].history + [Turn(job.step, a.work.body)], steps := run.steps + [job.step])
  }

  function CommitDirect(s: State, a: Action, r: RunId): Rows
    requires Commits(s, a, r)
  {
    var rows, run, job := RowsOf(s.db), Recorded(s, a, r), JobOf(s, a.work.worker);
    var done := StepFinished(r, job.step, a.work.body);
    if a.work.out.Finish?
    then With(rows, r, run.(state := Completed, failure := "", result := a.work.out.text), [], [done, RunCompleted(r)])
    else if a.work.out.Continue? then With(rows, r, run, [StepJob(r, job.step + 1, ByStep)], [done])
    else if Parks(s, a, r) then With(rows, r, run.(state := Awaiting, failure := ""), [], [done, RunAwaiting(r)])
    else With(rows, r, run, [], [done])
  }

  function ApiDirect(s: State, a: Action): Rows
    requires a.Api?
  {
    var rows, r := RowsOf(s.db), a.api.run;
    if a.api.Start? then
      if r in s.db.runs then rows
      else With(rows, r, Fresh(a.api.prompt), [StepJob(r, 0, ByStart)], [RunStarted(r, a.api.prompt)])
    else if r !in s.db.runs then rows
    else
    var run := s.db.runs[r];
    if IsAnswered(s, a, r) then
      With(rows, r, run.(history := run.history + [Answer(a.api.text)], state := Running, failure := ""),
           [StepJob(r, NextStep(run.steps), ByAnswer)], [UserMessage(r, a.api.text, HoldsUnresumedWait(s.db, r))])
    else if Expires(s, a, r) then
      With(rows, r, run.(cancelRequested := true, state := Cancelled, failure := "expired"),
           [], [RunCancelled(r, false)])
    else if FlagsRun(s, a, r) && run.state.Awaiting? then
      With(rows, r, run.(cancelRequested := true, state := Cancelled, failure := ""), [], [RunCancelled(r, false)])
    else if FlagsRun(s, a, r) then With(rows, r, run.(cancelRequested := true), [], [])
    else rows
  }

  function WorkDirect(s: State, a: Action, r: RunId): Rows
    requires a.Work? && r in s.db.runs
  {
    var rows, run := RowsOf(s.db), s.db.runs[r];
    if SeesFlag(s, a, r) then With(rows, r, run.(state := Cancelled, failure := ""), [], [RunCancelled(r, true)])
    else if Fails(s, a, r) then With(rows, r, run.(state := Failed, failure := a.work.reason), [], [RunFailed(r)])
    else if Begins(s, a, r) then With(rows, r, run.(state := Running, failure := ""), [], [])
    else if Commits(s, a, r) then CommitDirect(s, a, r)
    else rows
  }

  /** The run whose job a worker's step is about. */
  function RunAt(s: State, a: WorkAction): Option<RunId> {
    if a.Claim? then if a.job < |s.db.jobs| then Some(s.db.jobs[a.job].run) else None
    else if Executes(s, a.worker) then Some(JobOf(s, a.worker).run) else None
  }

  predicate Spawns(s: State, a: Action, child: RunId) {
    && a.Work? && a.work.Spawn? && a.work.child == child && child !in s.db.runs
    && Executes(s, a.work.worker) && JobOf(s, a.work.worker).run in s.db.runs
  }

  function Direct(s: State, a: Action): Rows {
    var rows := RowsOf(s.db);
    if a.Api? then ApiDirect(s, a)
    else if a.Work? && a.work.Spawn? then
      if Spawns(s, a, a.work.child) then
        With(rows, a.work.child, Fresh(a.work.prompt), [StepJob(a.work.child, 0, ByStart)],
             [RunSpawned(JobOf(s, a.work.worker).run, a.work.child, a.work.prompt)])
      else rows
    else if a.Work? && RunAt(s, a.work).Some? && RunAt(s, a.work).value in s.db.runs
    then WorkDirect(s, a, RunAt(s, a.work).value)
    else rows
  }

  // ---------------------------------------------------------------- every step is its direct effect and deliveries

  lemma StopEffect(db: Db, r: RunId, reason: string, text: string, order: seq<WaitId>)
    requires r in db.runs
    ensures var run := db.runs[r];
            && Delivers(With(RowsOf(db), r, run.(state := Cancelled, failure := ""), [], [RunCancelled(r, true)]),
                        RowsOf(CancelTx(db, r, order)))
            && (!run.state.Terminal() ==>
                  Delivers(With(RowsOf(db), r, run.(state := Failed, failure := reason), [], [RunFailed(r)]),
                           RowsOf(FailTx(db, r, reason, order))))
            && Delivers(With(RowsOf(db), r, run.(state := Completed, failure := "", result := text),
                             [], [RunCompleted(r)]),
                        RowsOf(FinishTx(db, r, text, order)))
  {
    var run := db.runs[r];
    SettleDelivers(Append(SetState(db, r, Cancelled, ""), RunCancelled(r, true)), r, order);
    SettleDelivers(Append(SetState(db, r, Failed, reason), RunFailed(r)), r, order);
    var done := run.(state := Completed, failure := "", result := text);
    SettleDelivers(Append(PutRun(db, r, done), RunCompleted(r)), r, order);
    assert db.jobs + [] == db.jobs;
  }

  lemma ApiEffect(s: State, a: Action)
    requires a.Api?
    ensures Direct(s, a) == RowsOf(ApiStep(s, a.api).db)
  {
    assert s.db.jobs + [] == s.db.jobs && s.db.log + [] == s.db.log;
  }

  lemma SpawnEffect(s: State, a: Action)
    requires a.Work? && a.work.Spawn?
    ensures Direct(s, a) == RowsOf(WorkStep(s, a.work).db)
  {
  }

  lemma ParkEffect(db: Db, r: RunId, step: nat, out: StepOutcome, now: Time)
    requires out.Park? && r in db.runs && db.runs[r].state.Running? && WaitId(r, step, out.call) !in db.waits
    requires ParkTx(db, r, step, out, now).Committed?
    ensures var b := ParkTx(db, r, step, out, now).value;
            var run := db.runs[r].(state := Awaiting, failure := "");
            if forall m :: m in out.members ==> IsTerminal(db, m)
            then Delivers(RowsOf(db), RowsOf(b))
            else RowsOf(b) == With(RowsOf(db), r, run, [], [RunAwaiting(r)])
  {
    var w := WaitId(r, step, out.call);
    var wait := Wait(Open, out.members, now + out.timeout, out.policy, false, None);
    var created := PutWait(db, w, wait);
    RunWaits.ParkTxEvaluates(db, r, step, out, now);
    EndedIsClosable(created, w);
    TryCloseDelivers(created, w, ByChild);
    assert RowsOf(created) == RowsOf(db);
    assert db.jobs + [] == db.jobs;
  }

  /** A wait can be closed for its children exactly if all of them have ended. */
  lemma EndedIsClosable(db: Db, w: WaitId)
    requires w in db.waits
    ensures Closable(db, w, ByChild) <==> forall m :: m in db.waits[w].members ==> IsTerminal(db, m)
  {
    var members := db.waits[w].members;
    RunTally.TallyPending(db, members, |members|);
    if forall m :: m in members ==> IsTerminal(db, m) {
      forall i | 0 <= i < |members| ensures IsTerminal(db, members[i]) { assert members[i] in members; }
    }
  }

  /** A commit goes through exactly under the conditions above. */
  lemma CommitGuards(s: State, a: Action, r: RunId)
    requires RunWaits.Inv(s) && WorksOn(s, a, r) && a.work.Commit? && WellFormed(a.work.out)
    requires s.db.runs[r].state.Running? && !s.db.runs[r].cancelRequested
    ensures var job := JobOf(s, a.work.worker);
            var copy := s.workers[a.work.worker].history;
            var tx := CommitTx(s.db, job, copy, a.work.body, a.work.out, s.now, a.work.order);
            && (tx.Committed? <==> Commits(s, a, r))
            && (Commits(s, a, r) && a.work.out.Park? ==> WaitId(r, job.step, a.work.out.call) !in s.db.waits)
  {
    var job := JobOf(s, a.work.worker);
    assert RunOrphans.JobOk(s.db, s.db.jobs[s.workers[a.work.worker].job]);
    if job.step !in s.db.runs[r].steps && a.work.out.Park? {
      RunWaits.FreshWait(s.db, job, a.work.out.call);
      assert HoldsOpenWait(s.db, r) <==> exists w :: w in s.db.waits && w.parent == r && s.db.waits[w].state.Open?;
    }
  }

  lemma AddRows(rows: Rows, r: RunId, run: Run, next: Run, jobs: seq<StepJob>, e: Event, events: seq<Event>)
    ensures With(With(rows, r, run, [], [e]), r, next, jobs, events) == With(rows, r, next, jobs, [e] + events)
  {
    assert rows.runs[r := run][r := next] == rows.runs[r := next];
    assert rows.log + [e] + events == rows.log + ([e] + events);
    assert rows.jobs + [] + jobs == rows.jobs + jobs;
  }

  /** What the classification adds to a recorded step. */
  function Classified(rows: Rows, r: RunId, step: nat, out: StepOutcome, ended: bool): Rows
    requires r in rows.runs
  {
    var run := rows.runs[r];
    match out
    case Finish(text) => With(rows, r, run.(state := Completed, failure := "", result := text), [], [RunCompleted(r)])
    case Continue => With(rows, r, run, [StepJob(r, step + 1, ByStep)], [])
    case _ =>
      if out.Park? && ended then rows
      else With(rows, r, run.(state := Awaiting, failure := ""), [], [RunAwaiting(r)])
  }

  lemma ClassifyEffect(db: Db, r: RunId, step: nat, out: StepOutcome, now: Time, order: seq<WaitId>)
    requires r in db.runs && db.runs[r].state.Running? && ClassifyTx(db, r, step, out, now, order).Committed?
    requires out.Park? ==> WaitId(r, step, out.call) !in db.waits
    ensures var ended := out.Park? && forall m :: m in out.members ==> IsTerminal(db, m);
            var rows := RowsOf(ClassifyTx(db, r, step, out, now, order).value);
            && Delivers(Classified(RowsOf(db), r, step, out, ended), rows)
            && (out.Ask? || (out.Park? && !ended) ==> rows == Classified(RowsOf(db), r, step, out, ended))
  {
    var ended := out.Park? && forall m :: m in out.members ==> IsTerminal(db, m);
    DeliversNothing(Classified(RowsOf(db), r, step, out, ended));
    assert db.jobs + [] == db.jobs && db.log + [] == db.log && db.runs[r := db.runs[r]] == db.runs;
    match out
    case Park(_, _, _, _) => ParkEffect(db, r, step, out, now);
    case Finish(text) => StopEffect(db, r, "", text, order);
    case _ =>
  }

  lemma CommitDirectIs(s: State, a: Action, r: RunId)
    requires Commits(s, a, r)
    ensures var job := JobOf(s, a.work.worker);
            var done := StepFinished(r, job.step, a.work.body);
            CommitDirect(s, a, r) ==
              Classified(With(RowsOf(s.db), r, Recorded(s, a, r), [], [done]), r, job.step, a.work.out,
                         a.work.out.Park? && AllEnded(s, a.work.out.members))
  {
    var job, run, rows := JobOf(s, a.work.worker), Recorded(s, a, r), RowsOf(s.db);
    var done := StepFinished(r, job.step, a.work.body);
    match a.work.out
    case Continue => AddRows(rows, r, run, run, [StepJob(r, job.step + 1, ByStep)], done, []);
    case Finish(text) =>
      AddRows(rows, r, run, run.(state := Completed, failure := "", result := text), [], done, [RunCompleted(r)]);
    case _ => AddRows(rows, r, run, run.(state := Awaiting, failure := ""), [], done, [RunAwaiting(r)]);
  }

  lemma RecordEffect(s: State, a: Action, r: RunId)
    requires RunWaits.Inv(s) && Commits(s, a, r)
    ensures Delivers(CommitDirect(s, a, r), RowsOf(WorkStep(s, a.work).db))
    ensures Parks(s, a, r) ==> RowsOf(WorkStep(s, a.work).db) == CommitDirect(s, a, r)
  {
    var job := JobOf(s, a.work.worker);
    var recorded := RecordStep(s.db, job, s.workers[a.work.worker].history, a.work.body);
    CommitGuards(s, a, r);
    CommitDirectIs(s, a, r);
    assert RowsOf(recorded) == With(RowsOf(s.db), r, Recorded(s, a, r), [], [StepFinished(r, job.step, a.work.body)]);
    assert forall m :: IsTerminal(recorded, m) <==> IsTerminal(s.db, m);
    ClassifyEffect(recorded, r, job.step, a.work.out, s.now, a.work.order);
  }

  lemma CommitEffect(s: State, a: Action, r: RunId)
    requires RunWaits.Inv(s) && a.Work? && a.work.Commit?
    requires Executes(s, a.work.worker) && JobOf(s, a.work.worker).run == r && r in s.db.runs
    ensures Delivers(WorkDirect(s, a, r), RowsOf(WorkStep(s, a.work).db))
  {
    DeliversNothing(RowsOf(s.db));
    if WorksOn(s, a, r) && WellFormed(a.work.out) && s.db.runs[r].state.Running? {
      if s.db.runs[r].cancelRequested {
        StopEffect(s.db, r, "", "", a.work.order);
      } else {
        CommitGuards(s, a, r);
        if Commits(s, a, r) { RecordEffect(s, a, r); }
      }
    }
  }

  lemma ClaimEffect(s: State, a: Action, r: RunId)
    requires a.Work? && a.work.Claim? && RunAt(s, a.work) == Some(r) && r in s.db.runs
    ensures Delivers(WorkDirect(s, a, r), RowsOf(WorkStep(s, a.work).db))
  {
    DeliversNothing(RowsOf(s.db));
    if Takes(s, a, r) {
      if SeesFlag(s, a, r) {
        StopEffect(s.db, r, "", "", a.work.order);
      } else if Begins(s, a, r) {
        assert s.db.jobs + [] == s.db.jobs && s.db.log + [] == s.db.log;
        DeliversNothing(WorkDirect(s, a, r));
      }
    }
  }

  lemma StopStepEffect(s: State, a: Action, r: RunId)
    requires a.Work? && (a.work.Fail? || a.work.StreamCancel?) && RunAt(s, a.work) == Some(r) && r in s.db.runs
    ensures Delivers(WorkDirect(s, a, r), RowsOf(WorkStep(s, a.work).db))
  {
    DeliversNothing(RowsOf(s.db));
    if WorksOn(s, a, r) {
      StopEffect(s.db, r, if a.work.Fail? then a.work.reason else "", "", a.work.order);
    }
  }

  lemma WorkEffect(s: State, a: Action)
    requires RunWaits.Inv(s) && a.Work?
    ensures Delivers(Direct(s, a), RowsOf(WorkStep(s, a.work).db))
  {
    DeliversNothing(Direct(s, a));
    match a.work
    case Spawn(_, _, _) => SpawnEffect(s, a);
    case Claim(_, j, _) =>
      if j < |s.db.jobs| && s.db.jobs[j].run in s.db.runs { ClaimEffect(s, a, s.db.jobs[j].run); }
    case Commit(k, _, _, _) =>
      if Executes(s, k) && JobOf(s, k).run in s.db.runs { CommitEffect(s, a, JobOf(s, k).run); }
    case Fail(k, _, _) =>
      if Executes(s, k) && JobOf(s, k).run in s.db.runs { StopStepEffect(s, a, JobOf(s, k).run); }
    case StreamCancel(k, _) =>
      if Executes(s, k) && JobOf(s, k).run in s.db.runs { StopStepEffect(s, a, JobOf(s, k).run); }
    case _ =>
  }

  lemma SweepEffect(c: Config, s: State, a: SweepAction)
    ensures Delivers(RowsOf(s.db), RowsOf(SweepStep(c, s, a).db))
  {
    DeliversNothing(RowsOf(s.db));
    if a.SweepResolve? && SweepStep(c, s, a) != s {
      TryCloseDelivers(s.db, s.sweepers[a.sweeper].todo[0], ByDeadline);
    }
  }

  lemma StepEffect(c: Config, s: State, a: Action)
    requires RunWaits.Inv(s)
    ensures Delivers(Direct(s, a), RowsOf(Next(c, s, a).db))
  {
    match a
    case Api(x) =>
      ApiEffect(s, a);
      DeliversNothing(Direct(s, a));
    case Work(x) => WorkEffect(s, a);
    case Sweep(x) => SweepEffect(c, s, x);
    case Tick(_) => DeliversNothing(RowsOf(s.db));
  }
}

/**
  The lifecycle of a run, exactly: which step enters which state, what the row,
  the log and the queue hold afterwards.  Every condition is about the state
  before the step; only a resumption is named by the event that tells of it,
  and RunOutcomes says when that happens.
 */
module RunLifecycle {
  import opened Options
  import opened RunTables
  import opened RunMachine
  import opened RunEffects
  import RunOrphans
  import RunWaits

  // ---------------------------------------------------------------- one row

  /** The events a step appends. */
  function News(s: State, t: State): seq<Event> {
    if s.db.log <= t.db.log then t.db.log[|s.db.log|..] else []
  }

  /** An outcome is delivered to run r. */
  predicate IsResumed(s: State, t: State, r: RunId) {
    exists i :: 0 <= i < |News(s, t)| && News(s, t)[i].ToolResulted? && News(s, t)[i].wait.parent == r
  }

  function RowDirect(s: State, a: Action, r: RunId): Run
    requires r in s.db.runs
  {
    var run := s.db.runs[r];
    if SeesFlag(s, a, r) then run.(state := Cancelled, failure := "")
    else if Fails(s, a, r) then run.(state := Failed, failure := a.work.reason)
    else if Begins(s, a, r) then run.(state := Running, failure := "")
    else if Commits(s, a, r) then
      var next := Recorded(s, a, r);
      if a.work.out.Finish? then next.(state := Completed, failure := "", result := a.work.out.text)
      else if Parks(s, a, r) then next.(state := Awaiting, failure := "")
      else next
    else if IsAnswered(s, a, r)
    then run.(history := run.history + [Answer(a.api.text)], state := Running, failure := "")
    else if Expires(s, a, r) then run.(cancelRequested := true, state := Cancelled, failure := "expired")
    else if FlagsRun(s, a, r)
    then if run.state.Awaiting? then run.(cancelRequested := true, state := Cancelled, failure := "")
         else run.(cancelRequested := true)
    else run
  }

  lemma ApiRow(s: State, a: Action, r: RunId)
    requires r in s.db.runs && a.Api?
    ensures r in ApiDirect(s, a).runs && ApiDirect(s, a).runs[r] == RowDirect(s, a, r)
  {
  }

  lemma DirectRow(s: State, a: Action, r: RunId)
    requires r in s.db.runs
    ensures r in Direct(s, a).runs && Direct(s, a).runs[r] == RowDirect(s, a, r)
  {
    if a.Api? { ApiRow(s, a, r); }
  }

  lemma {:induction false} NoneDelivered(events: seq<Event>, r: RunId)
    requires forall i :: 0 <= i < |events| ==> !events[i].ToolResulted?
    ensures Delivered(events, r) == []
    decreases |events|
  {
    if events != [] { NoneDelivered(events[..|events| - 1], r); }
  }

  lemma {:induction false} SomeDelivered(events: seq<Event>, r: RunId)
    ensures Delivered(events, r) != [] <==>
              exists i :: 0 <= i < |events| && events[i].ToolResulted? && events[i].wait.parent == r
    decreases |events|
  {
    if events != [] {
      var before := events[..|events| - 1];
      SomeDelivered(before, r);
      assert forall i :: 0 <= i < |before| ==> before[i] == events[i];
    }
  }

  /** The events that are the step's own, none of them an outcome. */
  function Own(s: State, a: Action): seq<Event> {
    if s.db.log <= Direct(s, a).log then Direct(s, a).log[|s.db.log|..] else []
  }

  lemma OwnEvents(s: State, a: Action)
    ensures Direct(s, a).log == s.db.log + Own(s, a)
    ensures forall i :: 0 <= i < |Own(s, a)| ==> !Own(s, a)[i].ToolResulted?
  {
  }

  /** After a log, own events and a delivery: what is new begins with the own events and brings what is delivered. */
  lemma NewsOf(log: seq<Event>, own: seq<Event>, d: Rows, b: Rows)
    requires Delivers(d, b) && d.log == log + own
    ensures log <= b.log && b.log[|log|..] == own + b.log[|d.log|..]
  {
    assert log <= d.log <= b.log;
    assert b.log[..|d.log|] == d.log;
  }

  lemma DeliversRow(d: Rows, b: Rows, r: RunId)
    requires Delivers(d, b) && r in d.runs
    ensures d.log <= b.log && r in b.runs
    ensures b.runs[r] == Receive(d.runs[r], Delivered(b.log[|d.log|..], r))
    ensures d.runs[r].state.Terminal() ==> Delivered(b.log[|d.log|..], r) == []
  {
    assert r in b.runs;
  }

  lemma NewsDelivered(log: seq<Event>, own: seq<Event>, d: Rows, b: Rows, r: RunId)
    requires Delivers(d, b) && d.log == log + own && r in d.runs
    requires forall i :: 0 <= i < |own| ==> !own[i].ToolResulted?
    ensures log <= b.log && r in b.runs
    ensures b.runs[r] == Receive(d.runs[r], Delivered(b.log[|log|..], r))
    ensures d.runs[r].state.Terminal() ==> Delivered(b.log[|log|..], r) == []
  {
    NewsOf(log, own, d, b);
    DeliversRow(d, b, r);
    var rest := b.log[|d.log|..];
    DeliveredAdds(own, rest, r);
    NoneDelivered(own, r);
    assert Delivered(b.log[|log|..], r) == Delivered(rest, r);
  }

  lemma RowAfter(c: Config, s: State, a: Action, r: RunId)
    requires RunWaits.Inv(s) && r in s.db.runs
    ensures var t := Next(c, s, a);
            && s.db.log <= t.db.log
            && r in t.db.runs && t.db.runs[r] == Receive(RowDirect(s, a, r), Delivered(News(s, t), r))
            && (Delivered(News(s, t), r) != [] <==> IsResumed(s, t, r))
            && (RowDirect(s, a, r).state.Terminal() ==> !IsResumed(s, t, r))
  {
    var t := Next(c, s, a);
    StepEffect(c, s, a);
    DirectRow(s, a, r);
    OwnEvents(s, a);
    NewsDelivered(s.db.log, Own(s, a), Direct(s, a), RowsOf(t.db), r);
    SomeDelivered(News(s, t), r);
  }

  // ---------------------------------------------------------------- states

  /** The state a step itself gives a run. */
  lemma DirectState(s: State, a: Action, r: RunId)
    requires r in s.db.runs
    ensures var before, after := s.db.runs[r].state, RowDirect(s, a, r).state;
            && (!before.Cancelled? ==> (after.Cancelled? <==> SeesFlag(s, a, r) || CancelledByHandler(s, a, r)))
            && (!before.Failed? ==> (after.Failed? <==> Fails(s, a, r)))
            && (!before.Completed? ==> (after.Completed? <==> Finishes(s, a, r)))
            && (!before.Awaiting? ==> (after.Awaiting? <==> Parks(s, a, r)))
            && (!before.Running? ==> (after.Running? <==> Begins(s, a, r) || IsAnswered(s, a, r)))
            && (after.Pending? ==> before.Pending?)
  {
  }

  lemma DirectWords(s: State, a: Action, r: RunId)
    requires r in s.db.runs
    ensures Fails(s, a, r) ==> RowDirect(s, a, r).failure == a.work.reason
    ensures Finishes(s, a, r) ==> RowDirect(s, a, r).result == a.work.out.text
  {
  }

  /** Exactly when a step makes a run cancelled. */
  lemma CancelledExactlyWhen(c: Config, acts: seq<Action>, a: Action, r: RunId)
    requires r in Exec(c, acts).db.runs && !Exec(c, acts).db.runs[r].state.Cancelled?
    ensures var s := Exec(c, acts);
            && r in Next(c, s, a).db.runs
            && (Next(c, s, a).db.runs[r].state.Cancelled? <==> SeesFlag(s, a, r) || CancelledByHandler(s, a, r))
  {
    RunWaits.ExecInv(c, acts);
    RowAfter(c, Exec(c, acts), a, r);
    DirectState(Exec(c, acts), a, r);
    DirectWords(Exec(c, acts), a, r);
  }

  /** Exactly when a step makes a run failed, and with which reason. */
  lemma FailedExactlyWhen(c: Config, acts: seq<Action>, a: Action, r: RunId)
    requires r in Exec(c, acts).db.runs && !Exec(c, acts).db.runs[r].state.Failed?
    ensures var s := Exec(c, acts);
            && r in Next(c, s, a).db.runs
            && (Next(c, s, a).db.runs[r].state.Failed? <==> Fails(s, a, r))
            && (Fails(s, a, r) ==> Next(c, s, a).db.runs[r].failure == a.work.reason)
  {
    RunWaits.ExecInv(c, acts);
    RowAfter(c, Exec(c, acts), a, r);
    DirectState(Exec(c, acts), a, r);
    DirectWords(Exec(c, acts), a, r);
  }

  /** Exactly when a step makes a run completed, and with which result, also a second time. */
  lemma CompletedExactlyWhen(c: Config, acts: seq<Action>, a: Action, r: RunId)
    requires r in Exec(c, acts).db.runs && !Exec(c, acts).db.runs[r].state.Completed?
    ensures var s := Exec(c, acts);
            && r in Next(c, s, a).db.runs
            && (Next(c, s, a).db.runs[r].state.Completed? <==> Finishes(s, a, r))
            && (Finishes(s, a, r) ==> Next(c, s, a).db.runs[r].result == a.work.out.text)
  {
    RunWaits.ExecInv(c, acts);
    RowAfter(c, Exec(c, acts), a, r);
    DirectState(Exec(c, acts), a, r);
    DirectWords(Exec(c, acts), a, r);
  }

  /** Exactly when a step makes a run await something. */
  lemma AwaitingExactlyWhen(c: Config, acts: seq<Action>, a: Action, r: RunId)
    requires r in Exec(c, acts).db.runs && !Exec(c, acts).db.runs[r].state.Awaiting?
    ensures var s := Exec(c, acts);
            && r in Next(c, s, a).db.runs
            && (Next(c, s, a).db.runs[r].state.Awaiting? <==> Parks(s, a, r))
  {
    var s := Exec(c, acts);
    RunWaits.ExecInv(c, acts);
    if Parks(s, a, r) {
      ParkedRow(s, a, r);
    } else {
      RowAfter(c, s, a, r);
      DirectState(s, a, r);
    }
  }

  lemma ParkedRow(s: State, a: Action, r: RunId)
    requires RunWaits.Inv(s) && Parks(s, a, r)
    ensures r in WorkStep(s, a.work).db.runs && WorkStep(s, a.work).db.runs[r].state.Awaiting?
  {
    RecordEffect(s, a, r);
    assert RowsOf(WorkStep(s, a.work).db).runs[r].state.Awaiting?;
  }

  /** Exactly when a step makes a run that is not running run; nothing makes one pending again. */
  lemma RunningExactlyWhen(c: Config, acts: seq<Action>, a: Action, r: RunId)
    requires r in Exec(c, acts).db.runs && !Exec(c, acts).db.runs[r].state.Running?
    ensures var s := Exec(c, acts);
            && r in Next(c, s, a).db.runs
            && (Next(c, s, a).db.runs[r].state.Running? <==>
                  Begins(s, a, r) || IsAnswered(s, a, r) || IsResumed(s, Next(c, s, a), r))
            && (Next(c, s, a).db.runs[r].state.Pending? ==> s.db.runs[r].state.Pending?)
  {
    RunWaits.ExecInv(c, acts);
    RowAfter(c, Exec(c, acts), a, r);
    DirectState(Exec(c, acts), a, r);
    DirectWords(Exec(c, acts), a, r);
  }

  // ---------------------------------------------------------------- the rest of the row

  /** A run that neither failed nor was cancelled has no failure. */
  predicate Blameless(run: Run) { run.state.Failed? || run.state.Cancelled? || run.failure == "" }

  ghost predicate AllBlameless(db: Db) {
    forall r {:trigger db.runs[r]} :: r in db.runs ==> Blameless(db.runs[r])
  }

  /** A new run is pending, with its prompt and nothing else. */
  predicate Starts(s: State, a: Action, r: RunId) {
    a.Api? && a.api.Start? && a.api.run == r && r !in s.db.runs
  }

  lemma DirectNew(s: State, a: Action, r: RunId)
    requires r !in s.db.runs
    ensures r in Direct(s, a).runs <==> Starts(s, a, r) || Spawns(s, a, r)
    ensures Starts(s, a, r) ==> Direct(s, a).runs[r] == Run(Pending, false, [Prompt(a.api.prompt)], [], "", "")
    ensures Spawns(s, a, r) ==> Direct(s, a).runs[r] == Run(Pending, false, [Prompt(a.work.prompt)], [], "", "")
  {
  }

  lemma NewRow(c: Config, s: State, a: Action, r: RunId)
    requires RunWaits.Inv(s) && r !in s.db.runs
    ensures var runs := Next(c, s, a).db.runs;
            && (r in runs <==> Starts(s, a, r) || Spawns(s, a, r))
            && (Starts(s, a, r) ==> runs[r] == Run(Pending, false, [Prompt(a.api.prompt)], [], "", ""))
            && (Spawns(s, a, r) ==> runs[r] == Run(Pending, false, [Prompt(a.work.prompt)], [], "", ""))
  {
    DirectNew(s, a, r);
    StepEffect(c, s, a);
    if a.Api? { ApiEffect(s, a); }
    if a.Work? && a.work.Spawn? { SpawnEffect(s, a); }
  }

  lemma DirectFields(s: State, a: Action, r: RunId)
    requires r in s.db.runs && Blameless(s.db.runs[r])
    ensures var run, next := s.db.runs[r], RowDirect(s, a, r);
            && next.steps == (if Commits(s, a, r) then run.steps + [JobOf(s, a.work.worker).step] else run.steps)
            && next.result == (if Finishes(s, a, r) then a.work.out.text else run.result)
            && (next.cancelRequested <==> run.cancelRequested || FlagsRun(s, a, r) || Expires(s, a, r))
            && next.failure == FailureAfter(s, a, r)
            && Blameless(next)
  {
  }

  function FailureAfter(s: State, a: Action, r: RunId): string
    requires r in s.db.runs
  {
    if Fails(s, a, r) then a.work.reason
    else if Expires(s, a, r) then "expired"
    else if SeesFlag(s, a, r) || CancelledByHandler(s, a, r) then ""
    else s.db.runs[r].failure
  }

  lemma NextBlameless(c: Config, s: State, a: Action)
    requires RunWaits.Inv(s) && AllBlameless(s.db)
    ensures AllBlameless(Next(c, s, a).db)
  {
    var t := Next(c, s, a);
    forall r | r in t.db.runs ensures Blameless(t.db.runs[r]) {
      if r in s.db.runs {
        RowAfter(c, s, a, r);
        DirectFields(s, a, r);
      } else {
        NewRow(c, s, a, r);
      }
    }
  }

  lemma {:induction false} ExecBlameless(c: Config, acts: seq<Action>)
    ensures AllBlameless(Exec(c, acts).db)
    decreases |acts|
  {
    if acts != [] {
      var before := acts[..|acts| - 1];
      ExecBlameless(c, before);
      RunWaits.ExecInv(c, before);
      NextBlameless(c, Exec(c, before), acts[|acts| - 1]);
    }
  }

  /** Exactly when a run comes into being, and what its row is then. */
  lemma CreatedExactlyWhen(c: Config, acts: seq<Action>, a: Action, r: RunId)
    requires r !in Exec(c, acts).db.runs
    ensures var s := Exec(c, acts);
            var runs := Next(c, s, a).db.runs;
            && (r in runs <==> Starts(s, a, r) || Spawns(s, a, r))
            && (r in runs ==>
                  runs[r] == Run(Pending, false, [Prompt(if a.Api? then a.api.prompt else a.work.prompt)], [], "", ""))
  {
    RunWaits.ExecInv(c, acts);
    NewRow(c, Exec(c, acts), a, r);
  }

  /** The steps, the result, the failure and the cancel flag of a run after a step. */
  lemma RowExactly(c: Config, acts: seq<Action>, a: Action, r: RunId)
    requires r in Exec(c, acts).db.runs
    ensures var s := Exec(c, acts);
            && r in Next(c, s, a).db.runs
            && var run, next := s.db.runs[r], Next(c, s, a).db.runs[r];
               && next.steps == (if Commits(s, a, r) then run.steps + [JobOf(s, a.work.worker).step] else run.steps)
               && next.result == (if Finishes(s, a, r) then a.work.out.text else run.result)
               && (next.cancelRequested <==> run.cancelRequested || FlagsRun(s, a, r) || Expires(s, a, r))
               && next.failure == FailureAfter(s, a, r)
  {
    var s := Exec(c, acts);
    RunWaits.ExecInv(c, acts);
    ExecBlameless(c, acts);
    RowAfter(c, s, a, r);
    DirectFields(s, a, r);
  }

  function OwnHistory(s: State, a: Action, r: RunId): seq<Entry>
    requires r in s.db.runs
  {
    if Commits(s, a, r)
    then s.workers[a.work.worker].history + [Turn(JobOf(s, a.work.worker).step, a.work.body)]
    else if IsAnswered(s, a, r) then s.db.runs[r].history + [Answer(a.api.text)]
    else s.db.runs[r].history
  }

  lemma DirectHistory(s: State, a: Action, r: RunId)
    requires r in s.db.runs
    ensures RowDirect(s, a, r).history == OwnHistory(s, a, r)
  {
  }

  /** The history of a run after a step: the step's own entry, then what is delivered, and nothing else. */
  lemma HistoryExactly(c: Config, acts: seq<Action>, a: Action, r: RunId)
    requires r in Exec(c, acts).db.runs
    ensures var s := Exec(c, acts);
            var t := Next(c, s, a);
            && r in t.db.runs && s.db.log <= t.db.log
            && t.db.runs[r].history == OwnHistory(s, a, r) + Delivered(t.db.log[|s.db.log|..], r)
  {
    var s := Exec(c, acts);
    RunWaits.ExecInv(c, acts);
    RowAfter(c, s, a, r);
    DirectHistory(s, a, r);
    assert OwnHistory(s, a, r) + [] == OwnHistory(s, a, r);
  }

  // ---------------------------------------------------------------- the log

  /** The events that are not outcomes, each with its occasion. */
  predicate Tells(s: State, a: Action, e: Event) {
    match e
    case RunStarted(r, prompt) => Starts(s, a, r) && a.api.prompt == prompt
    case RunSpawned(p, child, prompt) =>
      Spawns(s, a, child) && JobOf(s, a.work.worker).run == p && a.work.prompt == prompt
    case StepFinished(r, step, body) => Commits(s, a, r) && JobOf(s, a.work.worker).step == step && a.work.body == body
    case UserMessage(r, text, bypassed) =>
      && IsAnswered(s, a, r) && a.api.text == text
      && (bypassed <==> exists w :: w in s.db.waits && w.parent == r && !s.db.waits[w].resumed)
    case RunAwaiting(r) => Parks(s, a, r)
    case RunCompleted(r) => Finishes(s, a, r)
    case RunFailed(r) => Fails(s, a, r)
    case RunCancelled(r, settled) => if settled then SeesFlag(s, a, r) else CancelledByHandler(s, a, r)
    case ToolResulted(_, _, _) => false
  }

  lemma ApiTells(s: State, a: Action, e: Event)
    requires a.Api?
    ensures e in Own(s, a) <==> Tells(s, a, e)
  {
    OwnEvents(s, a);
  }

  lemma OwnTells(s: State, a: Action, e: Event)
    ensures e in Own(s, a) <==> Tells(s, a, e)
  {
    OwnEvents(s, a);
    if a.Api? {
      ApiTells(s, a, e);
    } else if a.Work? && a.work.Commit? && Executes(s, a.work.worker) && Commits(s, a, JobOf(s, a.work.worker).run) {
      CommitTells(s, a, JobOf(s, a.work.worker).run, e);
    }
  }

  lemma CommitTells(s: State, a: Action, r: RunId, e: Event)
    requires Commits(s, a, r)
    ensures e in Own(s, a) <==> Tells(s, a, e)
  {
    OwnEvents(s, a);
    assert !SeesFlag(s, a, r) && !Fails(s, a, r) && !Begins(s, a, r);
  }

  lemma OwnOnce(s: State, a: Action)
    ensures Distinct(Own(s, a))
  {
    OwnEvents(s, a);
  }

  lemma OwnAmongNews(log: seq<Event>, own: seq<Event>, d: Rows, b: Rows, e: Event)
    requires Delivers(d, b) && d.log == log + own && !e.ToolResulted?
    ensures log <= b.log && (e in b.log[|log|..] <==> e in own)
  {
    NewsOf(log, own, d, b);
    assert e !in b.log[|d.log|..];
  }

  /** The log tells of a step exactly what it did. */
  lemma ToldExactly(c: Config, acts: seq<Action>, a: Action, e: Event)
    requires !e.ToolResulted?
    ensures var s := Exec(c, acts);
            var t := Next(c, s, a);
            s.db.log <= t.db.log && (e in t.db.log[|s.db.log|..] <==> Tells(s, a, e))
  {
    var s := Exec(c, acts);
    RunWaits.ExecInv(c, acts);
    StepEffect(c, s, a);
    OwnEvents(s, a);
    OwnTells(s, a, e);
    OwnAmongNews(s.db.log, Own(s, a), Direct(s, a), RowsOf(Next(c, s, a).db), e);
  }

  lemma OwnOnceAmongNews(log: seq<Event>, own: seq<Event>, d: Rows, b: Rows, i: nat, j: nat)
    requires Delivers(d, b) && d.log == log + own && Distinct(own)
    requires |log| <= i < j < |b.log| && !b.log[i].ToolResulted?
    ensures b.log[i] != b.log[j]
  {
    NewsOf(log, own, d, b);
    var rest := b.log[|d.log|..];
    assert b.log[i] == (own + rest)[i - |log|] && b.log[j] == (own + rest)[j - |log|];
  }

  /** And each thing once. */
  lemma ToldOnce(c: Config, acts: seq<Action>, a: Action, i: nat, j: nat)
    requires var s := Exec(c, acts);
             var log := Next(c, s, a).db.log;
             |s.db.log| <= i < j < |log| && !log[i].ToolResulted?
    ensures var log := Next(c, Exec(c, acts), a).db.log; log[i] != log[j]
  {
    var s := Exec(c, acts);
    RunWaits.ExecInv(c, acts);
    StepEffect(c, s, a);
    OwnEvents(s, a);
    OwnOnce(s, a);
    OwnOnceAmongNews(s.db.log, Own(s, a), Direct(s, a), RowsOf(Next(c, s, a).db), i, j);
  }

  // ---------------------------------------------------------------- the queue

  /** The job a step enqueues of its own: the first of a new run, or the next of one that goes on or is answered. */
  predicate Enqueues(s: State, a: Action, job: StepJob) {
    match job.cause
    case ByStart => job.step == 0 && (Starts(s, a, job.run) || Spawns(s, a, job.run))
    case ByStep =>
      Commits(s, a, job.run) && a.work.out.Continue? && job.step == JobOf(s, a.work.worker).step + 1
    case ByAnswer => IsAnswered(s, a, job.run) && job.step == |s.db.runs[job.run].steps|
    case ByWait(_) => false
  }

  function OwnJobs(s: State, a: Action): seq<StepJob> {
    if s.db.jobs <= Direct(s, a).jobs then Direct(s, a).jobs[|s.db.jobs|..] else []
  }

  lemma OwnJobsAre(s: State, a: Action)
    ensures Direct(s, a).jobs == s.db.jobs + OwnJobs(s, a) && |OwnJobs(s, a)| <= 1
  {
  }

  lemma OwnJobsTell(s: State, a: Action, job: StepJob)
    requires RunOrphans.Inv(s)
    ensures job in OwnJobs(s, a) <==> Enqueues(s, a, job)
  {
    OwnJobsAre(s, a);
    if a.Api? && a.api.AnswerRun? && a.api.run in s.db.runs {
      assert RunOrphans.RunOk(s.db, a.api.run);
      RunOrphans.NextStepNumbered(s.db.runs[a.api.run].steps);
    }
  }

  /** Every event of the sequence that is an outcome for a known run has its job, and no other job is there. */
  lemma {:induction false} FollowedHas(events: seq<Event>, runs: map<RunId, Run>, job: StepJob)
    ensures job in Followed(events, runs) <==>
              && job.cause.ByWait? && job.run == job.cause.wait.parent && job.run in runs
              && job.step == NextStep(runs[job.run].steps)
              && exists i :: 0 <= i < |events| && events[i].ToolResulted? && events[i].wait == job.cause.wait
    decreases |events|
  {
    if events != [] {
      var before := events[..|events| - 1];
      FollowedHas(before, runs, job);
      assert forall i :: 0 <= i < |before| ==> before[i] == events[i];
    }
  }

  lemma JobsAfter(jobs: seq<StepJob>, own: seq<StepJob>, d: Rows, b: Rows, job: StepJob)
    requires Delivers(d, b) && d.jobs == jobs + own && |own| <= 1
    ensures jobs <= b.jobs
    ensures !job.cause.ByWait? ==> (job in b.jobs[|jobs|..] <==> job in own)
    ensures forall i :: 1 <= i < |b.jobs[|jobs|..]| ==> b.jobs[|jobs|..][i].cause.ByWait?
  {
    var followed := Followed(b.log[|d.log|..], d.runs);
    assert b.jobs == jobs + (own + followed);
    assert b.jobs[|jobs|..] == own + followed;
    forall j | j in followed ensures j.cause.ByWait? { FollowedHas(b.log[|d.log|..], d.runs, j); }
    forall i | 1 <= i < |own + followed| ensures (own + followed)[i].cause.ByWait? {
      assert (own + followed)[i] == followed[i - |own|];
    }
  }

  /** What a step enqueues: at most one job of its own, first, and one for every outcome it delivers. */
  lemma EnqueuedExactly(c: Config, acts: seq<Action>, a: Action, job: StepJob)
    ensures var s := Exec(c, acts);
            var t := Next(c, s, a);
            && s.db.jobs <= t.db.jobs
            && var jobs := t.db.jobs[|s.db.jobs|..];
               && (!job.cause.ByWait? ==> (job in jobs <==> Enqueues(s, a, job)))
               && (forall i :: 1 <= i < |jobs| ==> jobs[i].cause.ByWait?)
  {
    var s := Exec(c, acts);
    var t := Next(c, s, a);
    RunWaits.ExecInv(c, acts);
    StepEffect(c, s, a);
    OwnJobsAre(s, a);
    OwnJobsTell(s, a, job);
    JobsAfter(s.db.jobs, OwnJobs(s, a), Direct(s, a), RowsOf(t.db), job);
  }

  /** Exactly when a worker that takes a job is to execute its step, and on which history. */
  lemma ClaimedExactlyWhen(c: Config, acts: seq<Action>, a: Action, r: RunId)
    requires Takes(Exec(c, acts), a, r)
    ensures var s := Exec(c, acts);
            var run, worker := s.db.runs[r], a.work.worker;
            && worker in Next(c, s, a).workers
            && Next(c, s, a).workers[worker] ==
                 if (run.state.Pending? || run.state.Running?) && !run.cancelRequested
                    && s.db.jobs[a.work.job].step !in run.steps
                 then Executing(a.work.job, run.history)
                 else Acking(a.work.job)
  {
  }

  // ---------------------------------------------------------------- what is live

  /** What is enqueued from a to b is live, and what was live is so still. */
  ghost predicate Enlists(a: Db, b: Db) {
    && |a.jobs| <= |b.jobs|
    && forall i {:trigger i in b.live} :: i in b.live <==> i in a.live || |a.jobs| <= i < |b.jobs|
  }

  lemma TryCloseEnlists(db: Db, w: WaitId, reason: CloseReason)
    ensures Enlists(db, TryClose(db, w, reason))
  {
  }

  lemma {:induction false} ResolveAllEnlists(db: Db, ws: seq<WaitId>)
    ensures Enlists(db, ResolveAll(db, ws))
    decreases |ws|
  {
    if ws != [] {
      var b := TryClose(db, ws[0], ByChild);
      TryCloseEnlists(db, ws[0], ByChild);
      ResolveAllEnlists(b, ws[1..]);
      forall i ensures i in ResolveAll(db, ws).live <==> i in db.live || |db.jobs| <= i < |ResolveAll(db, ws).jobs| {
        assert i in b.live <==> i in db.live || |db.jobs| <= i < |b.jobs|;
      }
    }
  }

  lemma StopEnlists(db: Db, r: RunId, reason: string, text: string, order: seq<WaitId>)
    requires r in db.runs
    ensures Enlists(db, CancelTx(db, r, order)) && Enlists(db, FailTx(db, r, reason, order))
    ensures Enlists(db, FinishTx(db, r, text, order))
  {
    ResolveAllEnlists(Abandon(Append(SetState(db, r, Cancelled, ""), RunCancelled(r, true)), r), order);
    ResolveAllEnlists(Abandon(Append(SetState(db, r, Failed, reason), RunFailed(r)), r), order);
    var run := db.runs[r].(state := Completed, failure := "", result := text);
    ResolveAllEnlists(Abandon(Append(PutRun(db, r, run), RunCompleted(r)), r), order);
  }

  lemma ClassifyEnlists(db: Db, r: RunId, step: nat, out: StepOutcome, now: Time, order: seq<WaitId>)
    requires r in db.runs && ClassifyTx(db, r, step, out, now, order).Committed?
    ensures Enlists(db, ClassifyTx(db, r, step, out, now, order).value)
  {
    match out
    case Park(call, members, timeout, policy) =>
      var w := WaitId(r, step, call);
      TryCloseEnlists(CreateWaitRow(db, w, Wait(Open, members, now + timeout, policy, false, None)).value, w, ByChild);
    case Finish(text) => StopEnlists(db, r, "", text, order);
    case _ =>
  }

  lemma CommitEnlists(db: Db, job: StepJob, history: seq<Entry>, body: seq<string>, out: StepOutcome,
                      now: Time, order: seq<WaitId>)
    requires CommitTx(db, job, history, body, out, now, order).Committed?
    ensures Enlists(db, CommitTx(db, job, history, body, out, now, order).value)
  {
    StopEnlists(db, job.run, "", "", order);
    if !db.runs[job.run].cancelRequested {
      ClassifyEnlists(RecordStep(db, job, history, body), job.run, job.step, out, now, order);
    }
  }

  /** A worker that is through with job i acknowledges it. */
  predicate Acknowledges(s: State, a: Action, i: int) {
    a.Work? && a.work.Ack? && a.work.worker in s.workers && s.workers[a.work.worker].Acking?
    && s.workers[a.work.worker].job == i
  }

  lemma WorkEnlists(s: State, a: WorkAction)
    requires !a.Ack?
    ensures Enlists(s.db, WorkStep(s, a).db)
  {
    if WorkStep(s, a).db != s.db {
      match a
      case Claim(k, job, order) => StopEnlists(s.db, s.db.jobs[job].run, "", "", order);
      case Commit(k, body, out, order) =>
        CommitEnlists(s.db, JobOf(s, k), s.workers[k].history, body, out, s.now, order);
      case Fail(k, reason, order) => StopEnlists(s.db, JobOf(s, k).run, reason, "", order);
      case StreamCancel(k, order) => StopEnlists(s.db, JobOf(s, k).run, "", "", order);
      case _ =>
    }
  }

  lemma ApiEnlists(s: State, a: ApiAction)
    ensures Enlists(s.db, ApiStep(s, a).db)
  {
  }

  lemma SweepEnlists(c: Config, s: State, a: SweepAction)
    ensures Enlists(s.db, SweepStep(c, s, a).db)
  {
    if a.SweepResolve? && SweepStep(c, s, a) != s {
      TryCloseEnlists(s.db, s.sweepers[a.sweeper].todo[0], ByDeadline);
    }
  }

  /** Exactly which jobs are live: those enqueued by then and not acknowledged. */
  lemma LiveExactly(c: Config, s: State, a: Action, i: nat)
    ensures var t := Next(c, s, a);
            && |s.db.jobs| <= |t.db.jobs|
            && (i in t.db.live <==>
                  (i in s.db.live && !Acknowledges(s, a, i)) || |s.db.jobs| <= i < |t.db.jobs|)
  {
    match a
    case Api(x) => ApiEnlists(s, x);
    case Work(x) => if !x.Ack? { WorkEnlists(s, x); }
    case Sweep(x) => SweepEnlists(c, s, x);
    case Tick(_) =>
  }
}

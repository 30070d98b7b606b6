/**
  The step loop's transactions in the form the program has them: rows updated
  statement by statement, loops over members, steps and listed waits, and a
  rollback where a transaction function returns an error.  Every method is
  proved to do to the tables what the transaction function of RunTables says.
 */
module RunStore {
  import opened Options
  import opened RunTables
  import opened RunMachine

  /** How a transaction ended; Stale and Aborted have rolled back. */
  datatype Status = Done | StaleJob | Failure

  /** Every listing query may return its rows in any order; one order always exists. */
  lemma SomeListing(db: Db, r: RunId) returns (order: seq<WaitId>)
    ensures Lists(db, r, order)
  {
    order := ListingOf(WaitsToSettle(db, r));
  }

  lemma {:induction false} ListingOf(ws: set<WaitId>) returns (order: seq<WaitId>)
    ensures Distinct(order) && forall w :: w in order <==> w in ws
    decreases |ws|
  {
    if ws == {} {
      order := [];
    } else {
      var w :| w in ws;
      var rest := ListingOf(ws - {w});
      order := [w] + rest;
    }
  }

  /** What a sweep does to the waits it claimed, in the order it claimed them. */
  function TimeOut(db: Db, ws: seq<WaitId>, k: nat): Db
    requires k <= |ws|
  {
    if k == 0 then db else TryClose(TimeOut(db, ws, k - 1), ws[k - 1], ByDeadline)
  }

  class Store {
    var runs: map<RunId, Run>
    var waits: map<WaitId, Wait>
    var jobs: seq<StepJob>
    var live: set<nat>
    var sweeps: seq<Time>
    var liveSweeps: set<nat>
    var log: seq<Event>

    constructor ()
      ensures Tables() == EMPTY_DB && Valid()
    {
      runs, waits, jobs, live, sweeps, liveSweeps, log := map[], map[], [], {}, [], {}, [];
    }

    function Tables(): Db
      reads this
    {
      Db(runs, waits, jobs, live, sweeps, liveSweeps, log)
    }

    /** The foreign keys of run_waits and run_wait_members. */
    ghost predicate Valid()
      reads this
    {
      forall w :: w in waits ==> w.parent in runs && forall m :: m in waits[w].members ==> m in runs
    }

    // -------------------------------------------------------------- statements

    method Rollback(saved: Db)
      modifies this
      ensures Tables() == saved
    {
      runs, waits, jobs, live := saved.runs, saved.waits, saved.jobs, saved.live;
      sweeps, liveSweeps, log := saved.sweeps, saved.liveSweeps, saved.log;
    }

    method UpdateState(r: RunId, state: RunState, failure: string)
      requires r in runs
      modifies `runs
      ensures Tables() == SetState(old(Tables()), r, state, failure)
    {
      runs := runs[r := runs[r].(state := state, failure := failure)];
    }

    method UpdateHistory(r: RunId, history: seq<Entry>)
      requires r in runs
      modifies `runs
      ensures Tables() == PutRun(old(Tables()), r, old(runs)[r].(history := history))
    {
      runs := runs[r := runs[r].(history := history)];
    }

    method AppendEvent(e: Event)
      modifies `log
      ensures Tables() == Append(old(Tables()), e)
    {
      log := log + [e];
    }

    method EnqueueJob(job: StepJob)
      modifies `jobs, `live
      ensures Tables() == EnqueueStep(old(Tables()), job)
    {
      jobs, live := jobs + [job], live + {|jobs|};
    }

    method EnqueueTimeout(at: Time)
      modifies `sweeps, `liveSweeps
      ensures Tables() == EnqueueSweep(old(Tables()), at)
    {
      sweeps, liveSweeps := sweeps + [at], liveSweeps + {|sweeps|};
    }

    /** The step row is guarded by the unique key on (run, step). */
    method InsertStep(r: RunId, step: nat) returns (inserted: bool)
      requires r in runs
      modifies `runs
      ensures inserted <==> step !in old(runs)[r].steps
      ensures Tables() == if inserted then PutRun(old(Tables()), r, old(runs)[r].(steps := old(runs)[r].steps + [step]))
                          else old(Tables())
    {
      inserted := step !in runs[r].steps;
      if inserted {
        runs := runs[r := runs[r].(steps := runs[r].steps + [step])];
      }
    }

    /** Leaving open is guarded by the state the row still has. */
    method Close(w: WaitId, state: WaitState, result: Outcome) returns (closed: bool)
      modifies `waits
      ensures closed <==> w in old(waits) && old(waits)[w].state.Open?
      ensures waits == if closed then old(waits)[w := old(waits)[w].(state := state, result := Some(result))]
                       else old(waits)
    {
      closed := w in waits && waits[w].state.Open?;
      if closed {
        waits := waits[w := waits[w].(state := state, result := Some(result))];
      }
    }

    method MarkResumed(w: WaitId) returns (first: bool)
      requires w in waits
      modifies `waits
      ensures first <==> !old(waits)[w].resumed
      ensures waits == old(waits)[w := old(waits)[w].(resumed := true)]
    {
      first := !waits[w].resumed;
      waits := waits[w := waits[w].(resumed := true)];
    }

    method FirstFreeStep(r: RunId) returns (next: nat)
      requires r in runs
      ensures next == NextStep(runs[r].steps)
    {
      var steps := runs[r].steps;
      next := 0;
      var i := 0;
      while i < |steps|
        invariant i <= |steps| && next == NextStep(steps[..i])
      {
        assert steps[..i + 1][..i] == steps[..i];
        if steps[i] >= next { next := steps[i] + 1; }
        i := i + 1;
      }
      assert steps[..i] == steps;
    }

    method ListOpenForParent(parent: RunId) returns (order: seq<WaitId>)
      ensures Distinct(order)
      ensures forall w :: w in order <==> w in waits && w.parent == parent && waits[w].state.Open?
    {
      var todo := set w | w in waits && w.parent == parent && waits[w].state.Open?;
      order := [];
      while todo != {}
        invariant Distinct(order) && forall w :: w in order ==> w !in todo
        invariant forall w :: w in order || w in todo <==> w in waits && w.parent == parent && waits[w].state.Open?
        decreases |todo|
      {
        var w :| w in todo;
        order, todo := order + [w], todo - {w};
      }
    }

    method ListOpenForChild(child: RunId) returns (order: seq<WaitId>)
      ensures Distinct(order)
      ensures forall w :: w in order <==> w in waits && child in waits[w].members && waits[w].state.Open?
    {
      var todo := set w | w in waits && child in waits[w].members && waits[w].state.Open?;
      order := [];
      while todo != {}
        invariant Distinct(order) && forall w :: w in order ==> w !in todo
        invariant forall w :: w in order || w in todo <==>
                                w in waits && child in waits[w].members && waits[w].state.Open?
        decreases |todo|
      {
        var w :| w in todo;
        order, todo := order + [w], todo - {w};
      }
    }

    // -------------------------------------------------------------- waits

    /** Member states and results are read one by one and counted. */
    method ReadMembers(w: WaitId) returns (o: Outcome)
      requires Valid() && w in waits
      ensures o == Tally(Tables(), waits[w].members, |waits[w].members|)
    {
      var members := waits[w].members;
      var results, completed, failed, cancelled, pending := [], 0, 0, 0, 0;
      var i := 0;
      while i < |members|
        invariant i <= |members|
        invariant Outcome(Open, false, results, completed, failed, cancelled, pending) == Tally(Tables(), members, i)
      {
        var child := runs[members[i]];
        if !child.state.Terminal() {
          pending := pending + 1;
        } else {
          results := results + [MemberResult(i, members[i], child.state, child.result, child.failure)];
          match child.state {
            case Completed => completed := completed + 1;
            case Failed => failed := failed + 1;
            case _ => cancelled := cancelled + 1;
          }
        }
        i := i + 1;
      }
      o := Outcome(Open, false, results, completed, failed, cancelled, pending);
    }

    method Resume(w: WaitId, outcome: Outcome) returns (resumed: bool)
      requires Valid() && w in waits
      modifies this
      ensures Valid()
      ensures Tables() == ResumeParent(old(Tables()), w, outcome)
      ensures resumed <==> Resumes(old(Tables()), w)
    {
      var wait := waits[w];
      var first := MarkResumed(w);
      if !first {
        assert waits == old(waits);
        return false;
      }
      var parent := runs[w.parent];
      if parent.state.Terminal() { return false; }
      var isError := outcome.timedOut && wait.policy.FailCall?;
      UpdateHistory(w.parent, parent.history + [ToolResult(w, outcome, isError)]);
      UpdateState(w.parent, Running, "");
      AppendEvent(ToolResulted(w, outcome, isError));
      var next := FirstFreeStep(w.parent);
      EnqueueJob(StepJob(w.parent, next, ByWait(w)));
      assert runs == old(runs)[w.parent := parent.(history := parent.history + [ToolResult(w, outcome, isError)],
                                                   state := Running, failure := "")];
      resumed := true;
    }

    /** An open row is closed with its outcome; one the sweeper closed by claiming it only gets the outcome. */
    method RecordOutcome(w: WaitId, outcome: Outcome) returns (owned: bool)
      requires Valid() && w in waits
      modifies `waits
      ensures owned && Valid()
      ensures var wait := old(waits)[w];
              Tables() == PutWait(old(Tables()), w,
                                  if wait.state.Open? then wait.(state := outcome.state, result := Some(outcome))
                                  else wait.(result := Some(outcome)))
    {
      owned := true;
      if waits[w].state.Open? {
        owned := Close(w, outcome.state, outcome);
      } else {
        waits := waits[w := waits[w].(result := Some(outcome))];
      }
    }

    method TryCloseWait(w: WaitId, reason: CloseReason) returns (resumed: bool)
      requires Valid()
      modifies this
      ensures Valid() && runs.Keys == old(runs).Keys
      ensures Tables() == TryClose(old(Tables()), w, reason)
      ensures resumed <==> Closable(old(Tables()), w, reason) && Resumes(old(Tables()), w)
    {
      if w !in waits { return false; }
      var wait := waits[w];
      var outcome := ReadMembers(w);
      if outcome.pending > 0 && !reason.ByDeadline? { return false; }
      outcome := outcome.(state := Resolved);
      if reason.ByDeadline? && outcome.pending > 0 {
        outcome := outcome.(state := TimedOut, timedOut := true);
      }
      var owned := RecordOutcome(w, outcome);
      if !owned { return false; }
      resumed := Resume(w, outcome);
    }

    method ResolveChildWaits(child: RunId) returns (ghost order: seq<WaitId>)
      requires Valid()
      modifies this
      ensures Valid() && runs.Keys == old(runs).Keys
      ensures Distinct(order)
      ensures forall w :: w in order <==> w in old(waits) && child in old(waits)[w].members && old(waits)[w].state.Open?
      ensures Tables() == ResolveAll(old(Tables()), order)
    {
      var ws := ListOpenForChild(child);
      order := ws;
      var i := 0;
      while i < |ws|
        invariant i <= |ws| && Valid() && runs.Keys == old(runs).Keys
        invariant ResolveAll(Tables(), ws[i..]) == ResolveAll(old(Tables()), ws)
      {
        assert ws[i..][1..] == ws[i + 1..];
        var _ := TryCloseWait(ws[i], ByChild);
        i := i + 1;
      }
      assert ws[i..] == [];
    }

    method AbandonParentWaits(parent: RunId)
      requires Valid()
      modifies `waits
      ensures Valid()
      ensures Tables() == Abandon(old(Tables()), parent)
    {
      var ws := ListOpenForParent(parent);
      var i := 0;
      while i < |ws|
        invariant i <= |ws| && waits.Keys == old(waits).Keys
        invariant forall w :: w in waits ==>
          waits[w] == if w in ws[..i]
                      then old(waits)[w].(state := Abandoned, result := Some(ABANDONED_OUTCOME), resumed := true)
                      else old(waits)[w]
      {
        assert ws[i] in ws && ws[i] !in ws[..i];
        assert ws[..i + 1] == ws[..i] + [ws[i]];
        var _ := Close(ws[i], Abandoned, ABANDONED_OUTCOME);
        var _ := MarkResumed(ws[i]);
        i := i + 1;
      }
      assert ws[..i] == ws;
      assert waits == Abandon(old(Tables()), parent).waits;
    }

    method SettleTerminalRun(r: RunId) returns (ghost order: seq<WaitId>)
      requires Valid()
      modifies this
      ensures Valid() && Lists(old(Tables()), r, order)
      ensures Tables() == Settle(old(Tables()), r, order)
    {
      AbandonParentWaits(r);
      assert forall w :: w in waits ==> waits[w].members == old(waits)[w].members;
      order := ResolveChildWaits(r);
    }

    // -------------------------------------------------------------- worker transactions

    method MarkCancelled(r: RunId) returns (ghost order: seq<WaitId>)
      requires Valid() && r in runs
      modifies this
      ensures Valid() && Lists(old(Tables()), r, order)
      ensures Tables() == CancelTx(old(Tables()), r, order)
    {
      UpdateState(r, Cancelled, "");
      AppendEvent(RunCancelled(r, true));
      order := SettleTerminalRun(r);
    }

    method FailRun(r: RunId, reason: string) returns (ghost order: seq<WaitId>)
      requires Valid()
      modifies this
      ensures Valid() && Lists(old(Tables()), r, order)
      ensures Tables() == FailTx(old(Tables()), r, reason, order)
    {
      if r !in runs || runs[r].state.Terminal() {
        order := SomeListing(Tables(), r);
        return;
      }
      UpdateState(r, Failed, reason);
      AppendEvent(RunFailed(r));
      order := SettleTerminalRun(r);
    }

    /** A claimed job gets a copy of the history; any other is acknowledged. */
    method Claim(job: StepJob) returns (copy: Option<seq<Entry>>, ghost order: seq<WaitId>)
      requires Valid()
      modifies this
      ensures Valid() && Lists(old(Tables()), job.run, order)
      ensures ClaimTx(old(Tables()), job, order)
           == if copy.Some? then Claimed(Tables(), copy.value) else Acknowledged(Tables())
    {
      order := SomeListing(Tables(), job.run);
      copy := None;
      if job.run !in runs { return; }
      var run := runs[job.run];
      if !run.state.Pending? && !run.state.Running? { return; }
      if run.cancelRequested {
        order := MarkCancelled(job.run);
        return;
      }
      var i := 0;
      while i < |run.steps|
        invariant i <= |run.steps| && job.step !in run.steps[..i]
        invariant Tables() == old(Tables())
      {
        if run.steps[i] == job.step { return; }
        i := i + 1;
      }
      if run.state.Pending? {
        UpdateState(job.run, Running, "");
      }
      copy := Some(run.history);
    }

    method CreateWait(w: WaitId, wait: Wait) returns (created: bool)
      requires Valid() && w.parent in runs
      modifies `waits
      ensures Valid()
      ensures CreateWaitRow(old(Tables()), w, wait) == if created then Committed(Tables()) else Aborted
      ensures !created ==> Tables() == old(Tables())
    {
      if w in waits { return true; }
      if HoldsOpenWait(Tables(), w.parent) { return false; }
      var i := 0;
      while i < |wait.members|
        invariant i <= |wait.members| && forall m :: m in wait.members[..i] ==> m in runs
      {
        if wait.members[i] !in runs { return false; }
        i := i + 1;
      }
      waits := waits[w := wait];
      created := true;
    }

    /** Evaluates a wait just created, and arms its deadline and parks its parent if it stays open. */
    method EvaluateWait(w: WaitId, deadline: Time)
      requires Valid() && w.parent in runs
      modifies this
      ensures Valid() && Tables() == Evaluate(old(Tables()), w, deadline)
    {
      var resumed := TryCloseWait(w, ByChild);
      if resumed { return; }
      EnqueueTimeout(deadline + WAIT_TIMEOUT_SLACK);
      UpdateState(w.parent, Awaiting, "");
      AppendEvent(RunAwaiting(w.parent));
    }

    method ParkRun(r: RunId, step: nat, out: StepOutcome, now: Time) returns (ok: bool)
      requires Valid() && r in runs && out.Park?
      modifies this
      ensures Valid()
      ensures ParkTx(old(Tables()), r, step, out, now) == if ok then Committed(Tables()) else Aborted
    {
      var w := WaitId(r, step, out.call);
      ok := CreateWait(w, Wait(Open, out.members, now + out.timeout, out.policy, false, None));
      if ok { EvaluateWait(w, now + out.timeout); }
    }

    method Complete(r: RunId, text: string) returns (ghost order: seq<WaitId>)
      requires Valid() && r in runs
      modifies this
      ensures Valid() && Lists(old(Tables()), r, order)
      ensures Tables() == FinishTx(old(Tables()), r, text, order)
    {
      UpdateState(r, Completed, "");
      runs := runs[r := runs[r].(result := text)];
      assert runs == old(runs)[r := old(runs)[r].(state := Completed, failure := "", result := text)];
      AppendEvent(RunCompleted(r));
      order := SettleTerminalRun(r);
    }

    /** The switch at the end of a commit; the step row is already in. */
    method Classify(r: RunId, step: nat, out: StepOutcome, now: Time) returns (ok: bool, ghost order: seq<WaitId>)
      requires Valid() && r in runs
      modifies this
      ensures Valid() && Lists(old(Tables()), r, order)
      ensures ClassifyTx(old(Tables()), r, step, out, now, order) == if ok then Committed(Tables()) else Aborted
    {
      order := SomeListing(Tables(), r);
      ok := true;
      match out {
        case Park(_, _, _, _) =>
          ok := ParkRun(r, step, out, now);
        case Ask =>
          UpdateState(r, Awaiting, "");
          AppendEvent(RunAwaiting(r));
        case Continue =>
          EnqueueJob(StepJob(r, step + 1, ByStep));
        case Finish(text) =>
          order := Complete(r, text);
      }
    }

    /** A commit writes back the copy its worker took at claim, extended by the step's messages. */
    method CommitOutcome(job: StepJob, copy: seq<Entry>, body: seq<string>, out: StepOutcome, now: Time)
      returns (status: Status, ghost order: seq<WaitId>)
      requires Valid()
      modifies this
      ensures Valid() && Lists(old(Tables()), job.run, order)
      ensures match CommitTx(old(Tables()), job, copy, body, out, now, order)
              case Committed(db) => status.Done? && Tables() == db
              case Stale => status.StaleJob? && Tables() == old(Tables())
              case Aborted => status.Failure? && Tables() == old(Tables())
    {
      var saved := Tables();
      order := SomeListing(saved, job.run);
      if job.run !in runs { return Failure, order; }
      var run := runs[job.run];
      if !run.state.Running? { return StaleJob, order; }
      if run.cancelRequested {
        order := MarkCancelled(job.run);
        return Done, order;
      }
      UpdateHistory(job.run, copy + [Turn(job.step, body)]);
      var inserted := InsertStep(job.run, job.step);
      if !inserted {
        Rollback(saved);
        return StaleJob, order;
      }
      AppendEvent(StepFinished(job.run, job.step, body));
      assert runs ==
               old(runs)[job.run := run.(history := copy + [Turn(job.step, body)], steps := run.steps + [job.step])];
      assert Tables() == RecordStep(saved, job, copy, body);
      var ok;
      ok, order := Classify(job.run, job.step, out, now);
      assert Lists(saved, job.run, order);
      if !ok {
        Rollback(saved);
        return Failure, order;
      }
      status := Done;
    }

    // -------------------------------------------------------------- handlers

    method StartRun(r: RunId, prompt: string) returns (ok: bool)
      requires Valid()
      modifies this
      ensures Valid()
      ensures StartTx(old(Tables()), r, prompt) == if ok then Committed(Tables()) else Aborted
      ensures !ok ==> Tables() == old(Tables())
    {
      if r in runs { return false; }
      runs := runs[r := NewRun(prompt)];
      AppendEvent(RunStarted(r, prompt));
      EnqueueJob(StepJob(r, 0, ByStart));
      ok := true;
    }

    method AnswerRun(r: RunId, text: string) returns (ok: bool)
      requires Valid()
      modifies this
      ensures Valid()
      ensures AnswerTx(old(Tables()), r, text) == if ok then Committed(Tables()) else Aborted
      ensures !ok ==> Tables() == old(Tables())
    {
      if r !in runs { return false; }
      var locked := runs[r];
      if !locked.state.Awaiting? && !locked.state.Completed? { return false; }
      UpdateHistory(r, locked.history + [Answer(text)]);
      UpdateState(r, Running, "");
      assert runs ==
               old(runs)[r := locked.(history := locked.history + [Answer(text)], state := Running, failure := "")];
      AppendEvent(UserMessage(r, text, HoldsUnresumedWait(Tables(), r)));
      var next := FirstFreeStep(r);
      EnqueueJob(StepJob(r, next, ByAnswer));
      ok := true;
    }

    method CancelRun(r: RunId) returns (ok: bool)
      requires Valid()
      modifies this
      ensures Valid()
      ensures CancelRequestTx(old(Tables()), r) == if ok then Committed(Tables()) else Aborted
      ensures !ok ==> Tables() == old(Tables())
    {
      if r !in runs || runs[r].state.Terminal() { return false; }
      var locked := runs[r];
      runs := runs[r := locked.(cancelRequested := true)];
      if locked.state.Awaiting? {
        UpdateState(r, Cancelled, "");
        AbandonParentWaits(r);
        AppendEvent(RunCancelled(r, false));
      }
      ok := true;
    }

    method ExpireAwait(r: RunId) returns (ok: bool)
      requires Valid()
      modifies this
      ensures Valid()
      ensures ExpireTx(old(Tables()), r) == if ok then Committed(Tables()) else Aborted
      ensures !ok ==> Tables() == old(Tables())
    {
      if r !in runs || !runs[r].state.Awaiting? { return false; }
      runs := runs[r := runs[r].(cancelRequested := true)];
      UpdateState(r, Cancelled, "expired");
      AbandonParentWaits(r);
      AppendEvent(RunCancelled(r, false));
      ok := true;
    }

    // -------------------------------------------------------------- deadline sweep

    /** An unclaimed due row with the earliest deadline. */
    method Earliest(rest: set<WaitId>) returns (w: WaitId)
      requires rest != {} && forall v :: v in rest ==> v in waits
      ensures w in rest && forall v :: v in rest ==> waits[w].deadline <= waits[v].deadline
    {
      w :| w in rest;
      var todo := rest - {w};
      while todo != {}
        invariant w in rest && todo <= rest
        invariant forall v :: v in rest && v !in todo ==> waits[w].deadline <= waits[v].deadline
        decreases |todo|
      {
        var v :| v in todo;
        if waits[v].deadline < waits[w].deadline { w := v; }
        todo := todo - {v};
      }
    }

    /** Selects a batch of due rows in deadline order, passing over locked ones, and marks them timed out. */
    method ClaimDue(now: Time, batch: nat, locked: set<WaitId>) returns (due: seq<WaitId>)
      requires Valid()
      modifies `waits
      ensures Valid()
      ensures IsBatch(old(Tables()), now, batch, due, locked)
      ensures Tables() == ClaimDueTx(old(Tables()), due)
    {
      var rest := set w | w in waits && waits[w].state.Open? && waits[w].deadline <= now && w !in locked;
      due := [];
      while rest != {} && |due| < batch
        invariant Distinct(due) && |due| <= batch
        invariant forall w :: w in due ==> w !in rest
        invariant forall w :: w in due || w in rest <==> Due(Tables(), w, now) && w !in locked
        invariant forall v, w :: v in due && w in rest ==> waits[v].deadline <= waits[w].deadline
        invariant Tables() == old(Tables())
        decreases |rest|
      {
        var w := Earliest(rest);
        due, rest := due + [w], rest - {w};
      }
      waits := map w | w in waits :: if w in due then waits[w].(state := TimedOut) else waits[w];
    }

    /**
      One sweep.  broken is the position of the first resolution whose
      transaction fails, if any; a sweep that meets it, or whose batch was full,
      schedules another one.
     */
    method Sweep(now: Time, later: Time, c: Config, locked: set<WaitId>, broken: Option<nat>) returns (due: seq<WaitId>)
      requires Valid()
      modifies this
      ensures Valid()
      ensures IsBatch(old(Tables()), now, c.batch, due, locked)
      ensures var failed := broken.Some? && broken.value < |due|;
              var swept := TimeOut(ClaimDueTx(old(Tables()), due), due, if failed then broken.value else |due|);
              Tables() == if failed || |due| == c.batch then EnqueueSweep(swept, later + c.retry) else swept
    {
      due := ClaimDue(now, c.batch, locked);
      ghost var claimed := Tables();
      var i := 0;
      while i < |due|
        invariant i <= |due| && Valid()
        invariant broken.Some? && broken.value < |due| ==> i <= broken.value
        invariant Tables() == TimeOut(claimed, due, i)
      {
        if broken == Some(i) {
          EnqueueTimeout(later + c.retry);
          return;
        }
        var _ := TryCloseWait(due[i], ByDeadline);
        i := i + 1;
      }
      if |due| == c.batch {
        EnqueueTimeout(later + c.retry);
      }
    }
  }
}

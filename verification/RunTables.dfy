/**
  The tables the durable step loop works on, and one function per database
  transaction of the loop, its wait handling and the handlers that share its rows.

  A transaction is a function from tables to tables.  Everything here is a
  value; RunStore.dfy holds the imperative form, statement by statement.
 */
module RunTables {
  import opened Options

  type RunId = string
  type Time = nat

  datatype RunState = Pending | Running | Awaiting | Completed | Failed | Cancelled {
    predicate Terminal() { Completed? || Failed? || Cancelled? }

    /** A run in this state is waiting for a queue job to move it. */
    predicate Active() { Pending? || Running? }
  }

  datatype WaitState = Open | Resolved | TimedOut | Abandoned

  datatype TimeoutPolicy = ResolvePartial | FailCall

  /** The wait's uuid is derived from (parent, step, tool call); see SpawnTree for the key. */
  datatype WaitId = WaitId(parent: RunId, step: nat, call: string)

  datatype MemberResult = MemberResult(ordinal: nat, run: RunId, state: RunState, result: string, failure: string)

  datatype Outcome = Outcome(
    state: WaitState, timedOut: bool, members: seq<MemberResult>,
    completed: nat, failed: nat, cancelled: nat, pending: nat)

  /** One contribution to a run's message history. */
  datatype Entry =
    | Prompt(text: string)
    | Turn(step: nat, body: seq<string>)
    | Answer(text: string)
    | ToolResult(wait: WaitId, outcome: Outcome, isError: bool)

  /** steps lists the committed step rows in commit order. */
  datatype Run = Run(
    state: RunState, cancelRequested: bool, history: seq<Entry>, steps: seq<nat>,
    result: string, failure: string)

  datatype Wait = Wait(
    state: WaitState, members: seq<RunId>, deadline: Time, policy: TimeoutPolicy,
    resumed: bool, result: Option<Outcome>)

  /** Why a step job was enqueued. */
  datatype Cause = ByStart | ByStep | ByAnswer | ByWait(wait: WaitId)

  datatype StepJob = StepJob(run: RunId, step: nat, cause: Cause)

  /**
    Session events.  Three tags are the model's own, so that the log alone
    decides the properties: a finished step carries its messages, a user
    message says whether an unresumed wait was bypassed, and a cancellation
    says whether the run's memberships were settled with it.
   */
  datatype Event =
    | RunStarted(run: RunId, prompt: string)
    | RunSpawned(parent: RunId, child: RunId, prompt: string)
    | StepFinished(run: RunId, step: nat, body: seq<string>)
    | UserMessage(run: RunId, text: string, bypassed: bool)
    | ToolResulted(wait: WaitId, outcome: Outcome, isError: bool)
    | RunAwaiting(run: RunId)
    | RunCompleted(run: RunId)
    | RunFailed(run: RunId)
    | RunCancelled(run: RunId, settled: bool)

  /**
    Queue rows are never forgotten: jobs lists every step job ever enqueued and
    live holds the positions not yet acknowledged; likewise for deadline sweeps,
    whose row is the time they are scheduled at.
   */
  datatype Db = Db(
    runs: map<RunId, Run>, waits: map<WaitId, Wait>,
    jobs: seq<StepJob>, live: set<nat>,
    sweeps: seq<Time>, liveSweeps: set<nat>,
    log: seq<Event>)

  const WAIT_TIMEOUT_SLACK: nat := 250

  const EMPTY_DB := Db(map[], map[], [], {}, [], {}, [])

  // ---------------------------------------------------------------- row operations

  function EnqueueStep(db: Db, job: StepJob): Db {
    db.(jobs := db.jobs + [job], live := db.live + {|db.jobs|})
  }

  function EnqueueSweep(db: Db, at: Time): Db {
    db.(sweeps := db.sweeps + [at], liveSweeps := db.liveSweeps + {|db.sweeps|})
  }

  function Append(db: Db, e: Event): Db {
    db.(log := db.log + [e])
  }

  function PutRun(db: Db, r: RunId, run: Run): Db {
    db.(runs := db.runs[r := run])
  }

  function PutWait(db: Db, w: WaitId, wait: Wait): Db {
    db.(waits := db.waits[w := wait])
  }

  function SetState(db: Db, r: RunId, state: RunState, failure: string): Db {
    if r in db.runs then PutRun(db, r, db.runs[r].(state := state, failure := failure)) else db
  }

  predicate IsTerminal(db: Db, r: RunId) {
    r in db.runs && db.runs[r].state.Terminal()
  }

  function Max(a: nat, b: nat): nat { if a < b then b else a }

  /** One past the largest committed step index, 0 when there is none. */
  function NextStep(steps: seq<nat>): nat {
    if steps == [] then 0 else Max(NextStep(steps[..|steps| - 1]), steps[|steps| - 1] + 1)
  }

  predicate HoldsOpenWait(db: Db, r: RunId) {
    exists w :: w in db.waits && w.parent == r && db.waits[w].state.Open?
  }

  predicate HoldsUnresumedWait(db: Db, r: RunId) {
    exists w :: w in db.waits && w.parent == r && !db.waits[w].resumed
  }

  predicate Distinct<T(==)>(s: seq<T>) {
    forall i, j :: 0 <= i < j < |s| ==> s[i] != s[j]
  }

  // ---------------------------------------------------------------- waits

  datatype CloseReason = ByChild | ByDeadline

  const NO_OUTCOME := Outcome(Open, false, [], 0, 0, 0, 0)

  /** One terminal member is recorded and counted under its state. */
  function AddResult(o: Outcome, m: MemberResult): Outcome {
    var o' := o.(members := o.members + [m]);
    match m.state
    case Completed => o'.(completed := o.completed + 1)
    case Failed => o'.(failed := o.failed + 1)
    case _ => o'.(cancelled := o.cancelled + 1)
  }

  function ResultOf(db: Db, ordinal: nat, m: RunId): MemberResult
    requires m in db.runs
  {
    MemberResult(ordinal, m, db.runs[m].state, db.runs[m].result, db.runs[m].failure)
  }

  /** The outcome accumulated over the first k members. */
  function Tally(db: Db, members: seq<RunId>, k: nat): Outcome
    requires k <= |members|
  {
    if k == 0 then NO_OUTCOME else
    var o := Tally(db, members, k - 1);
    if IsTerminal(db, members[k - 1]) then AddResult(o, ResultOf(db, k - 1, members[k - 1]))
    else o.(pending := o.pending + 1)
  }

  /** The outcome tryCloseWait computes for a wait before it touches any row. */
  function Settlement(db: Db, wait: Wait, reason: CloseReason): Outcome {
    var o := Tally(db, wait.members, |wait.members|);
    if reason.ByDeadline? && o.pending > 0
    then o.(state := TimedOut, timedOut := true)
    else o.(state := Resolved)
  }

  predicate ResultIsError(wait: Wait, o: Outcome) {
    o.timedOut && wait.policy.FailCall?
  }

  /** Whether resumeParent gets past its two guards. */
  predicate Resumes(db: Db, w: WaitId) {
    w in db.waits && !db.waits[w].resumed && w.parent in db.runs && !db.runs[w.parent].state.Terminal()
  }

  function ResumeParent(db: Db, w: WaitId, o: Outcome): Db
    requires w in db.waits
  {
    var wait := db.waits[w];
    if wait.resumed then db else
    var db1 := PutWait(db, w, wait.(resumed := true));
    if !Resumes(db, w) then db1 else
    var parent := db.runs[w.parent];
    var isError := ResultIsError(wait, o);
    var db2 := PutRun(db1, w.parent, parent.(
                        history := parent.history + [ToolResult(w, o, isError)],
                        state := Running, failure := ""));
    EnqueueStep(Append(db2, ToolResulted(w, o, isError)),
                StepJob(w.parent, NextStep(parent.steps), ByWait(w)))
  }

  /** Whether the members allow the wait to be closed for this reason. */
  predicate Closable(db: Db, w: WaitId, reason: CloseReason) {
    w in db.waits
    && (Tally(db, db.waits[w].members, |db.waits[w].members|).pending > 0 ==> reason.ByDeadline?)
  }

  function TryClose(db: Db, w: WaitId, reason: CloseReason): Db {
    if !Closable(db, w, reason) then db else
    var wait := db.waits[w];
    var o := Settlement(db, wait, reason);
    var closed := if wait.state.Open? then wait.(state := o.state, result := Some(o))
                  else wait.(result := Some(o));
    ResumeParent(PutWait(db, w, closed), w, o)
  }

  const ABANDONED_OUTCOME := Outcome(Abandoned, false, [], 0, 0, 0, 0)

  /** Every open wait held by a parent leaves open as abandoned, its resumption consumed. */
  function Abandon(db: Db, parent: RunId): Db {
    db.(waits := map w | w in db.waits ::
      if w.parent == parent && db.waits[w].state.Open?
      then db.waits[w].(state := Abandoned, result := Some(ABANDONED_OUTCOME), resumed := true)
      else db.waits[w])
  }

  function ResolveAll(db: Db, ws: seq<WaitId>): Db
    decreases |ws|
  {
    if ws == [] then db else ResolveAll(TryClose(db, ws[0], ByChild), ws[1..])
  }

  /** The open waits a settling run is a member of, its own ones already abandoned. */
  function WaitsToSettle(db: Db, child: RunId): set<WaitId> {
    set w | w in db.waits && db.waits[w].state.Open? && w.parent != child && child in db.waits[w].members
  }

  /** order is a listing, in whatever order the query returns it, of the waits to settle. */
  predicate Lists(db: Db, child: RunId, order: seq<WaitId>) {
    && Distinct(order)
    && (forall w :: w in order ==> w in WaitsToSettle(db, child))
    && (forall w :: w in WaitsToSettle(db, child) ==> w in order)
  }

  function Settle(db: Db, r: RunId, order: seq<WaitId>): Db {
    ResolveAll(Abandon(db, r), order)
  }

  // ---------------------------------------------------------------- worker transactions

  function CancelTx(db: Db, r: RunId, order: seq<WaitId>): Db {
    Settle(Append(SetState(db, r, Cancelled, ""), RunCancelled(r, true)), r, order)
  }

  function FailTx(db: Db, r: RunId, reason: string, order: seq<WaitId>): Db {
    if r !in db.runs || db.runs[r].state.Terminal() then db
    else Settle(Append(SetState(db, r, Failed, reason), RunFailed(r)), r, order)
  }

  /** Stale and Aborted roll back; a stale job is acknowledged, an aborted one is retried. */
  datatype TxResult<+T> = Committed(value: T) | Stale | Aborted

  datatype ClaimResult = Claimed(db: Db, history: seq<Entry>) | Acknowledged(db: Db)

  function ClaimTx(db: Db, job: StepJob, order: seq<WaitId>): ClaimResult {
    if job.run !in db.runs then Acknowledged(db) else
    var run := db.runs[job.run];
    if !run.state.Active() then Acknowledged(db)
    else if run.cancelRequested then Acknowledged(CancelTx(db, job.run, order))
    else if job.step in run.steps then Acknowledged(db)
    else if run.state.Pending? then Claimed(SetState(db, job.run, Running, ""), run.history)
    else Claimed(db, run.history)
  }

  /** How the executed step is classified at commit. */
  datatype StepOutcome =
    | Park(call: string, members: seq<RunId>, timeout: nat, policy: TimeoutPolicy)
    | Ask
    | Continue
    | Finish(text: string)

  /**
    Insert of the wait row and its members.  The insert ignores every unique
    conflict, so a second open wait of the same parent inserts nothing and is
    then reported as not found, which aborts the transaction.
   */
  function CreateWaitRow(db: Db, w: WaitId, wait: Wait): TxResult<Db> {
    if w in db.waits then Committed(db)
    else if HoldsOpenWait(db, w.parent) then Aborted
    else if exists m :: m in wait.members && m !in db.runs then Aborted
    else Committed(PutWait(db, w, wait))
  }

  /** The rows written when the parent really parks: the armed deadline, its state, its event. */
  function ParkRows(db: Db, r: RunId, deadline: Time): Db {
    Append(SetState(EnqueueSweep(db, deadline + WAIT_TIMEOUT_SLACK), r, Awaiting, ""), RunAwaiting(r))
  }

  /** A freshly created wait is evaluated at once; the parent parks unless that resumed it. */
  function Evaluate(created: Db, w: WaitId, deadline: Time): Db {
    var evaluated := TryClose(created, w, ByChild);
    if Closable(created, w, ByChild) && Resumes(created, w) then evaluated else ParkRows(evaluated, w.parent, deadline)
  }

  function ParkTx(db: Db, r: RunId, step: nat, out: StepOutcome, now: Time): TxResult<Db>
    requires out.Park?
  {
    var w := WaitId(r, step, out.call);
    var deadline := now + out.timeout;
    match CreateWaitRow(db, w, Wait(Open, out.members, deadline, out.policy, false, None))
    case Stale => Stale
    case Aborted => Aborted
    case Committed(created) => Committed(Evaluate(created, w, deadline))
  }

  /** The rows written before a commit is classified: history, step row and its event. */
  function RecordStep(db: Db, job: StepJob, history: seq<Entry>, body: seq<string>): Db
    requires job.run in db.runs
  {
    var run := db.runs[job.run];
    Append(PutRun(db, job.run, run.(history := history + [Turn(job.step, body)],
                                    steps := run.steps + [job.step])),
           StepFinished(job.run, job.step, body))
  }

  function FinishTx(db: Db, r: RunId, text: string, order: seq<WaitId>): Db
    requires r in db.runs
  {
    Settle(Append(PutRun(db, r, db.runs[r].(state := Completed, failure := "", result := text)),
                  RunCompleted(r)), r, order)
  }

  /** What happens next, decided once the step row is in. */
  function ClassifyTx(db: Db, r: RunId, step: nat, out: StepOutcome, now: Time, order: seq<WaitId>): TxResult<Db>
    requires r in db.runs
  {
    match out
    case Park(_, _, _, _) => ParkTx(db, r, step, out, now)
    case Ask => Committed(Append(SetState(db, r, Awaiting, ""), RunAwaiting(r)))
    case Continue => Committed(EnqueueStep(db, StepJob(r, step + 1, ByStep)))
    case Finish(text) => Committed(FinishTx(db, r, text, order))
  }

  function CommitTx(db: Db, job: StepJob, history: seq<Entry>, body: seq<string>, out: StepOutcome,
                    now: Time, order: seq<WaitId>): TxResult<Db>
  {
    if job.run !in db.runs then Aborted else
    var run := db.runs[job.run];
    if !run.state.Running? then Stale
    else if run.cancelRequested then Committed(CancelTx(db, job.run, order))
    else if job.step in run.steps then Stale
    else ClassifyTx(RecordStep(db, job, history, body), job.run, job.step, out, now, order)
  }

  // ---------------------------------------------------------------- handlers

  function NewRun(prompt: string): Run {
    Run(Pending, false, [Prompt(prompt)], [], "", "")
  }

  function StartTx(db: Db, r: RunId, prompt: string): TxResult<Db> {
    if r in db.runs then Aborted
    else Committed(EnqueueStep(Append(PutRun(db, r, NewRun(prompt)), RunStarted(r, prompt)),
                               StepJob(r, 0, ByStart)))
  }

  /** The creating half of a spawn; adoption of an existing child changes no row. */
  function SpawnTx(db: Db, parent: RunId, child: RunId, prompt: string): TxResult<Db> {
    if child in db.runs || parent !in db.runs then Aborted
    else Committed(EnqueueStep(Append(PutRun(db, child, NewRun(prompt)), RunSpawned(parent, child, prompt)),
                               StepJob(child, 0, ByStart)))
  }

  function AnswerTx(db: Db, r: RunId, text: string): TxResult<Db> {
    if r !in db.runs || !(db.runs[r].state.Awaiting? || db.runs[r].state.Completed?) then Aborted else
    var run := db.runs[r];
    var db1 := PutRun(db, r, run.(history := run.history + [Answer(text)], state := Running, failure := ""));
    Committed(EnqueueStep(Append(db1, UserMessage(r, text, HoldsUnresumedWait(db, r))),
                          StepJob(r, NextStep(run.steps), ByAnswer)))
  }

  function CancelRequestTx(db: Db, r: RunId): TxResult<Db> {
    if r !in db.runs || db.runs[r].state.Terminal() then Aborted else
    var run := db.runs[r];
    var db1 := PutRun(db, r, run.(cancelRequested := true));
    if run.state.Awaiting?
    then Committed(Append(Abandon(SetState(db1, r, Cancelled, ""), r), RunCancelled(r, false)))
    else Committed(db1)
  }

  function ExpireTx(db: Db, r: RunId): TxResult<Db> {
    if r !in db.runs || !db.runs[r].state.Awaiting? then Aborted else
    var db1 := PutRun(db, r, db.runs[r].(cancelRequested := true));
    Committed(Append(Abandon(SetState(db1, r, Cancelled, "expired"), r), RunCancelled(r, false)))
  }

  // ---------------------------------------------------------------- deadline sweep

  predicate Due(db: Db, w: WaitId, now: Time) {
    w in db.waits && db.waits[w].state.Open? && db.waits[w].deadline <= now
  }

  /** Claiming moves the given waits out of open; the outcome is computed later. */
  function ClaimDueTx(db: Db, due: seq<WaitId>): Db {
    db.(waits := map w | w in db.waits ::
      if w in due then db.waits[w].(state := TimedOut) else db.waits[w])
  }
}

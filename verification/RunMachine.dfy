/**
  The step loop as a machine.  Every database transaction is one atomic step;
  workers and deadline sweepers are processes that hold what they have read,
  may be given any live job (several may hold the same one), and may vanish
  between any two steps.  A job stays live until its worker acknowledges it.
 */
module RunMachine {
  import opened RunTables

  /** Sweep settings; both are replaced by positive defaults when unset. */
  datatype Config = Config(batch: nat, retry: nat) {
    predicate Valid() { batch > 0 && retry > 0 }
  }

  datatype Worker =
    | Executing(job: nat, history: seq<Entry>)
    | Acking(job: nat)

  /** at is the time the sweep read the clock; full says the batch was truncated. */
  datatype Sweeper =
    | Resolving(job: nat, at: Time, todo: seq<WaitId>, full: bool)
    | SweepAcking(job: nat, at: Time)

  /** skipped collects due waits that a sweep passed over because their row was locked. */
  datatype State = State(
    db: Db, now: Time, workers: map<nat, Worker>, sweepers: map<nat, Sweeper>, skipped: set<WaitId>)

  const INIT := State(EMPTY_DB, 0, map[], map[], {})

  /** API and admin handlers. */
  datatype ApiAction =
    | Start(run: RunId, prompt: string)
    | AnswerRun(run: RunId, text: string)
    | CancelRun(run: RunId)
    | ExpireRun(run: RunId)

  /** Step workers. */
  datatype WorkAction =
    | Claim(worker: nat, job: nat, order: seq<WaitId>)
    | Spawn(worker: nat, child: RunId, prompt: string)
    | Commit(worker: nat, body: seq<string>, out: StepOutcome, order: seq<WaitId>)
    | Fail(worker: nat, reason: string, order: seq<WaitId>)
    | StreamCancel(worker: nat, order: seq<WaitId>)
    | Ack(worker: nat)
    | Crash(worker: nat)

  /** Deadline sweepers. */
  datatype SweepAction =
    | SweepClaim(sweeper: nat, job: nat, due: seq<WaitId>, locked: set<WaitId>)
    | SweepResolve(sweeper: nat)
    | SweepFail(sweeper: nat)
    | SweepDone(sweeper: nat)
    | SweepAck(sweeper: nat)
    | SweepCrash(sweeper: nat)

  datatype Action = Api(api: ApiAction) | Work(work: WorkAction) | Sweep(sweep: SweepAction) | Tick(elapsed: nat)

  function WithDb(s: State, r: TxResult<Db>): State {
    if r.Committed? then s.(db := r.value) else s
  }

  predicate Executes(s: State, k: nat) {
    k in s.workers && s.workers[k].Executing? && s.workers[k].job < |s.db.jobs|
  }

  function JobOf(s: State, k: nat): StepJob
    requires Executes(s, k)
  {
    s.db.jobs[s.workers[k].job]
  }

  function ToAcking(s: State, k: nat, db: Db): State
    requires k in s.workers
  {
    s.(db := db, workers := s.workers[k := Acking(s.workers[k].job)])
  }

  function ClaimStep(s: State, k: nat, job: nat, order: seq<WaitId>): State {
    if k in s.workers || job !in s.db.live || job >= |s.db.jobs| || !Lists(s.db, s.db.jobs[job].run, order) then s else
    match ClaimTx(s.db, s.db.jobs[job], order)
    case Claimed(db, history) => s.(db := db, workers := s.workers[k := Executing(job, history)])
    case Acknowledged(db) => s.(db := db, workers := s.workers[k := Acking(job)])
  }

  /** A well-formed wait names at least one child, each once, and a positive timeout. */
  predicate WellFormed(out: StepOutcome) {
    out.Park? ==> out.members != [] && Distinct(out.members) && out.timeout > 0
  }

  function CommitStep(s: State, k: nat, body: seq<string>, out: StepOutcome, order: seq<WaitId>): State {
    if !Executes(s, k) || !WellFormed(out) || !Lists(s.db, JobOf(s, k).run, order) then s else
    match CommitTx(s.db, JobOf(s, k), s.workers[k].history, body, out, s.now, order)
    case Committed(db) => ToAcking(s, k, db)
    case Stale => ToAcking(s, k, s.db)
    case Aborted => s.(workers := s.workers - {k})
  }

  function FailStep(s: State, k: nat, reason: string, order: seq<WaitId>): State {
    if !Executes(s, k) || !Lists(s.db, JobOf(s, k).run, order) then s
    else ToAcking(s, k, FailTx(s.db, JobOf(s, k).run, reason, order))
  }

  /** The stream was aborted because the cancel flag was seen; the state is not looked at again. */
  function StreamCancelStep(s: State, k: nat, order: seq<WaitId>): State {
    if !Executes(s, k) || JobOf(s, k).run !in s.db.runs || !s.db.runs[JobOf(s, k).run].cancelRequested
       || !Lists(s.db, JobOf(s, k).run, order)
    then s
    else ToAcking(s, k, CancelTx(s.db, JobOf(s, k).run, order))
  }

  function SpawnStep(s: State, k: nat, child: RunId, prompt: string): State {
    if !Executes(s, k) then s else WithDb(s, SpawnTx(s.db, JobOf(s, k).run, child, prompt))
  }

  function AckStep(s: State, k: nat): State {
    if k !in s.workers || !s.workers[k].Acking? then s
    else s.(db := s.db.(live := s.db.live - {s.workers[k].job}), workers := s.workers - {k})
  }

  /**
    What one claiming statement may return: distinct due waits, at most a batch,
    earliest deadlines first among those whose row is not locked.
   */
  predicate IsBatch(db: Db, now: Time, batch: nat, due: seq<WaitId>, locked: set<WaitId>) {
    && Distinct(due) && |due| <= batch
    && (forall w :: w in due ==> Due(db, w, now) && w !in locked)
    && (forall w :: w in db.waits && Due(db, w, now) && w !in locked && w !in due ==>
          |due| == batch
          && forall v :: v in due && v in db.waits ==> db.waits[v].deadline <= db.waits[w].deadline)
  }

  function SweepClaimStep(c: Config, s: State, k: nat, job: nat, due: seq<WaitId>, locked: set<WaitId>): State {
    if k in s.sweepers || job !in s.db.liveSweeps || job >= |s.db.sweeps| || s.now < s.db.sweeps[job]
       || !IsBatch(s.db, s.now, c.batch, due, locked)
    then s
    else s.(db := ClaimDueTx(s.db, due),
            sweepers := s.sweepers[k := Resolving(job, s.now, due, |due| == c.batch)],
            skipped := s.skipped + set w | w in locked && Due(s.db, w, s.now))
  }

  function SweepResolveStep(s: State, k: nat): State {
    if k !in s.sweepers || !s.sweepers[k].Resolving? || s.sweepers[k].todo == [] then s else
    var sw := s.sweepers[k];
    s.(db := TryClose(s.db, sw.todo[0], ByDeadline), sweepers := s.sweepers[k := sw.(todo := sw.todo[1..])])
  }

  function Rearm(c: Config, s: State, k: nat): State
    requires k in s.sweepers
  {
    s.(db := EnqueueSweep(s.db, s.now + c.retry),
       sweepers := s.sweepers[k := SweepAcking(s.sweepers[k].job, s.sweepers[k].at)])
  }

  /** A failed resolution gives up the rest of the batch and schedules another sweep. */
  function SweepFailStep(c: Config, s: State, k: nat): State {
    if k !in s.sweepers || !s.sweepers[k].Resolving? || s.sweepers[k].todo == [] then s else Rearm(c, s, k)
  }

  function SweepDoneStep(c: Config, s: State, k: nat): State {
    if k !in s.sweepers || !s.sweepers[k].Resolving? || s.sweepers[k].todo != [] then s
    else if s.sweepers[k].full then Rearm(c, s, k)
    else s.(sweepers := s.sweepers[k := SweepAcking(s.sweepers[k].job, s.sweepers[k].at)])
  }

  function SweepAckStep(s: State, k: nat): State {
    if k !in s.sweepers || !s.sweepers[k].SweepAcking? then s
    else s.(db := s.db.(liveSweeps := s.db.liveSweeps - {s.sweepers[k].job}), sweepers := s.sweepers - {k})
  }

  function ApiStep(s: State, a: ApiAction): State {
    match a
    case Start(r, prompt) => WithDb(s, StartTx(s.db, r, prompt))
    case AnswerRun(r, text) => WithDb(s, AnswerTx(s.db, r, text))
    case CancelRun(r) => WithDb(s, CancelRequestTx(s.db, r))
    case ExpireRun(r) => WithDb(s, ExpireTx(s.db, r))
  }

  function WorkStep(s: State, a: WorkAction): State {
    match a
    case Claim(k, job, order) => ClaimStep(s, k, job, order)
    case Spawn(k, child, prompt) => SpawnStep(s, k, child, prompt)
    case Commit(k, body, out, order) => CommitStep(s, k, body, out, order)
    case Fail(k, reason, order) => FailStep(s, k, reason, order)
    case StreamCancel(k, order) => StreamCancelStep(s, k, order)
    case Ack(k) => AckStep(s, k)
    case Crash(k) => s.(workers := s.workers - {k})
  }

  function SweepStep(c: Config, s: State, a: SweepAction): State {
    match a
    case SweepClaim(k, job, due, locked) => SweepClaimStep(c, s, k, job, due, locked)
    case SweepResolve(k) => SweepResolveStep(s, k)
    case SweepFail(k) => SweepFailStep(c, s, k)
    case SweepDone(k) => SweepDoneStep(c, s, k)
    case SweepAck(k) => SweepAckStep(s, k)
    case SweepCrash(k) => s.(sweepers := s.sweepers - {k})
  }

  /** One step of the machine; an action whose guard fails changes nothing. */
  function Next(c: Config, s: State, a: Action): State {
    match a
    case Api(x) => ApiStep(s, x)
    case Work(x) => WorkStep(s, x)
    case Sweep(x) => SweepStep(c, s, x)
    case Tick(d) => s.(now := s.now + d)
  }

  /** The state after a finite run of the machine. */
  function Exec(c: Config, acts: seq<Action>): State {
    if acts == [] then INIT
    else Next(c, Exec(c, acts[..|acts| - 1]), acts[|acts| - 1])
  }
}

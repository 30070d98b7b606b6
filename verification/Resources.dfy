/**
  The lifecycle of one resource.  Its row and the queue jobs about it change in
  small transactions; a worker reads the row once when it is given a job, talks
  to the provider, and writes later, so reads, provider answers and commits of
  different workers interleave.  A job stays live until its worker is done with
  it; a worker that crashes or reports an error leaves its job to be redelivered.
 */
module Resources {

  datatype ResourceState = Requested | Provisioning | Ready | Suspended | Terminating | Terminated | Failed {
    predicate Final() { Terminated? || Failed? }
  }

  datatype Job = Provision | Restart | Reconcile | Terminate

  /** jobs lists every job ever enqueued; live holds the positions not yet done. */
  datatype Row = Row(state: ResourceState, jobs: seq<Job>, live: set<nat>)

  // ---------------------------------------------------------------- transactions

  function Enqueue(row: Row, job: Job): Row {
    row.(jobs := row.jobs + [job], live := row.live + {|row.jobs|})
  }

  /** Creation carries the provisioning job and a watchdog. */
  const REQUESTED := Row(Requested, [Provision, Reconcile], {0, 1})

  function RequestTerminateTx(row: Row): Row {
    if row.state.Terminated? then row else Enqueue(row.(state := Terminating), Terminate)
  }

  function RequestRestartTx(row: Row): Row {
    if row.state.Final() || row.state.Terminating? then row else Enqueue(row.(state := Provisioning), Restart)
  }

  function SetReadyTx(row: Row): Row {
    Enqueue(row.(state := Ready), Reconcile)
  }

  function ProvisionedTx(row: Row): Row {
    if row.state.Provisioning? then SetReadyTx(row) else row
  }

  function RestartedTx(row: Row): Row {
    if row.state.Final() then row else SetReadyTx(row)
  }

  function ResumedTx(row: Row): Row {
    if row.state.Suspended? then SetReadyTx(row) else row
  }

  function SuspendTx(row: Row): Row {
    if row.state.Ready? then row.(state := Suspended) else row
  }

  function RearmTx(row: Row): Row { Enqueue(row, Reconcile) }

  function RedriveTx(row: Row): Row {
    if row.state.Requested? || row.state.Provisioning? then Enqueue(Enqueue(row, Provision), Reconcile) else row
  }

  function ConfirmTx(row: Row): Row {
    if row.state.Ready? then RearmTx(row) else row
  }

  /** An operator's suspension; nothing is enqueued with it. */
  function AdminSuspendTx(row: Row): Row {
    if row.state.Ready? || row.state.Suspended? then row.(state := Suspended) else row
  }

  // ---------------------------------------------------------------- workers

  /** What a worker has still to do; Building follows the unconditional switch to provisioning. */
  datatype Phase =
    | Starting
    | Building
    | Restarting
    | Recovering
    | ProbingSuspended
    | ProbingReady
    | Rearming
    | Destroying
    | Done

  /** What a worker does, given the state it reads when it takes the job. */
  function FirstPhase(job: Job, seen: ResourceState): Phase {
    match job
    case Provision => if seen.Ready? || seen.Final() then Done else Starting
    case Restart => if seen.Final() then Done else Restarting
    case Terminate => if seen.Terminated? then Done else Destroying
    case Reconcile =>
      if seen.Requested? || seen.Provisioning? then Recovering
      else if seen.Suspended? then ProbingSuspended
      else if seen.Ready? then ProbingReady
      else Done
  }

  /**
    Good: the provider did what was asked, or the resource is healthy.  Bad: it
    failed for good.  Later: not decided yet, or the host is unreachable.
   */
  datatype Answer = Good | Bad | Later

  function StepTx(row: Row, phase: Phase, answer: Answer): (Row, Phase) {
    match phase
    case Starting => (row.(state := Provisioning), Building)
    case Building => (if answer.Bad? then row.(state := Failed) else ProvisionedTx(row), Done)
    case Restarting => (if answer.Bad? then row.(state := Failed) else RestartedTx(row), Done)
    case Recovering =>
      (match answer case Good => RedriveTx(row) case Bad => row.(state := Failed) case Later => RearmTx(row), Done)
    case ProbingSuspended =>
      (match answer case Good => ResumedTx(row) case Bad => row.(state := Failed) case Later => RearmTx(row), Done)
    case ProbingReady =>
      (match answer
       case Good => (ConfirmTx(row), Done)
       case Bad => (row.(state := Failed), Done)
       case Later => (SuspendTx(row), Rearming))
    case Rearming => (RearmTx(row), Done)
    case Destroying => (row.(state := Terminated), Done)
    case Done => (row, Done)
  }

  datatype Worker = Worker(job: nat, phase: Phase)

  datatype State = State(row: Row, workers: map<nat, Worker>)

  const INIT := State(REQUESTED, map[])

  datatype Action =
    | Deliver(worker: nat, job: nat)
    | Step(worker: nat, answer: Answer)
    | Drop(worker: nat)
    | RequestTerminate
    | RequestRestart
    | AdminSuspend

  function StepWorker(s: State, k: nat, answer: Answer): State
    requires k in s.workers
  {
    var w := s.workers[k];
    if w.phase.Done? then State(s.row.(live := s.row.live - {w.job}), s.workers - {k})
    else var (row, phase) := StepTx(s.row, w.phase, answer); State(row, s.workers[k := w.(phase := phase)])
  }

  function Next(s: State, a: Action): State {
    match a
    case Deliver(k, j) =>
      if k in s.workers || j !in s.row.live || j >= |s.row.jobs| then s
      else s.(workers := s.workers[k := Worker(j, FirstPhase(s.row.jobs[j], s.row.state))])
    case Step(k, answer) => if k in s.workers then StepWorker(s, k, answer) else s
    case Drop(k) => s.(workers := s.workers - {k})
    case RequestTerminate => s.(row := RequestTerminateTx(s.row))
    case RequestRestart => s.(row := RequestRestartTx(s.row))
    case AdminSuspend => s.(row := AdminSuspendTx(s.row))
  }

  function Exec(acts: seq<Action>): State {
    if acts == [] then INIT else Next(Exec(acts[..|acts| - 1]), acts[|acts| - 1])
  }

  predicate Held(s: State, j: nat) {
    exists k :: k in s.workers && s.workers[k].job == j
  }

  /** No operator suspension, and no job is delivered while another worker still has it. */
  predicate OrderlyStep(s: State, a: Action) {
    && !a.AdminSuspend?
    && (a.Deliver? ==> !Held(s, a.job))
  }

  predicate Orderly(acts: seq<Action>) {
    forall i :: 0 <= i < |acts| ==> OrderlyStep(Exec(acts[..i]), acts[i])
  }

  // ---------------------------------------------------------------- who observes the resource

  /** A job nobody holds will act on a resource in this state. */
  predicate IdleActs(job: Job, state: ResourceState) {
    match job
    case Provision => !state.Ready? && !state.Final()
    case Restart => !state.Final()
    case Terminate => !state.Final()
    case Reconcile => !state.Terminating? && !state.Final()
  }

  /** A worker in this phase will act on a resource in this state, and so will its job if the worker is lost. */
  predicate PhaseActs(phase: Phase, state: ResourceState) {
    match phase
    case Starting => !state.Ready? && !state.Final()
    case Building => state.Provisioning?
    case Restarting => !state.Final()
    case Destroying => !state.Final()
    case Recovering => state.Requested? || state.Provisioning?
    case ProbingSuspended => state.Suspended?
    case ProbingReady => state.Ready?
    case Rearming => !state.Terminating? && !state.Final()
    case Done => false
  }

  predicate PhaseOf(job: Job, phase: Phase) {
    match phase
    case Starting => job.Provision?
    case Building => job.Provision?
    case Restarting => job.Restart?
    case Destroying => job.Terminate?
    case Done => true
    case _ => job.Reconcile?
  }

  predicate Observes(s: State, j: nat) {
    && j in s.row.live && j < |s.row.jobs|
    && if Held(s, j)
       then exists k :: k in s.workers && s.workers[k].job == j && PhaseActs(s.workers[k].phase, s.row.state)
       else IdleActs(s.row.jobs[j], s.row.state)
  }

  ghost predicate Observed(s: State) {
    s.row.state.Final() || exists j :: Observes(s, j)
  }

  // ---------------------------------------------------------------- what every run keeps

  predicate WorkerOk(s: State, k: nat)
    requires k in s.workers
  {
    var w := s.workers[k];
    w.job < |s.row.jobs| && PhaseOf(s.row.jobs[w.job], w.phase)
  }

  /** Jobs and workers fit together; several workers may hold one job, also one that is done. */
  ghost predicate Sound(s: State) {
    && (forall j :: j in s.row.live ==> j < |s.row.jobs|)
    && (forall k {:trigger WorkerOk(s, k)} :: k in s.workers ==> WorkerOk(s, k))
  }

  lemma NextSound(s: State, a: Action)
    requires Sound(s)
    ensures Sound(Next(s, a))
  {
    var t := Next(s, a);
    forall k | k in t.workers ensures WorkerOk(t, k) {
      if k in s.workers { assert WorkerOk(s, k); }
    }
  }

  lemma {:induction false} ExecSound(acts: seq<Action>)
    ensures Sound(Exec(acts))
    decreases |acts|
  {
    if acts != [] {
      ExecSound(acts[..|acts| - 1]);
      NextSound(Exec(acts[..|acts| - 1]), acts[|acts| - 1]);
    }
  }

  // ---------------------------------------------------------------- finding an observer

  lemma FreshObserves(s: State, j: nat)
    requires j in s.row.live && j < |s.row.jobs| && IdleActs(s.row.jobs[j], s.row.state)
    requires forall k :: k in s.workers ==> s.workers[k].job != j
    ensures Observed(s)
  {
    assert Observes(s, j);
  }

  lemma HeldObserves(s: State, k: nat)
    requires k in s.workers && s.workers[k].job in s.row.live && s.workers[k].job < |s.row.jobs|
    requires PhaseActs(s.workers[k].phase, s.row.state)
    ensures Observed(s)
  {
    assert Observes(s, s.workers[k].job);
  }

  /** A job observes as before if the state, the job and its holders are untouched. */
  lemma SameObserver(s: State, t: State, j: nat)
    requires s.row.state == t.row.state && s.row.jobs <= t.row.jobs && j < |s.row.jobs|
    requires j in s.row.live <==> j in t.row.live
    requires forall k :: (k in s.workers && s.workers[k].job == j) || (k in t.workers && t.workers[k].job == j)
               ==> k in s.workers && k in t.workers && s.workers[k] == t.workers[k]
    ensures Observes(s, j) <==> Observes(t, j)
  {
    if Held(s, j) {
      var k :| k in s.workers && s.workers[k].job == j;
      assert Held(t, j);
    }
    if Held(t, j) {
      var k :| k in t.workers && t.workers[k].job == j;
      assert Held(s, j);
    }
  }

  predicate Untaken(s: State) {
    exists j :: j in s.row.live && !Held(s, j)
  }

  /** Some worker whose job is not done yet acts on that state. */
  predicate Attended(s: State, state: ResourceState) {
    exists k :: k in s.workers && s.workers[k].job in s.row.live && PhaseActs(s.workers[k].phase, state)
  }

  /** Any job acts on a provisioning or suspended resource once it is read. */
  lemma EnteredObserved(t: State)
    requires Sound(t) && (t.row.state.Provisioning? || t.row.state.Suspended?)
    ensures Observed(t) <==> Untaken(t) || Attended(t, t.row.state)
  {
    if j :| j in t.row.live && !Held(t, j) {
      FreshObserves(t, j);
    }
    if k :| k in t.workers && t.workers[k].job in t.row.live && PhaseActs(t.workers[k].phase, t.row.state) {
      HeldObserves(t, k);
    }
    if Observed(t) {
      var j :| Observes(t, j);
      assert Held(t, j) ==> Attended(t, t.row.state);
    }
  }

  // ---------------------------------------------------------------- exactly when observation is lost

  ghost predicate OnlyObserver(s: State, j: nat) {
    Observes(s, j) && forall i :: Observes(s, i) ==> i == j
  }

  /** Every live job is taken, and all workers that have one have nothing to do with a provisioning resource. */
  predicate NobodyProvisions(s: State) {
    && !Untaken(s)
    && forall k :: k in s.workers && s.workers[k].job in s.row.live ==>
         var p := s.workers[k].phase; p.ProbingSuspended? || p.ProbingReady? || p.Done?
  }

  /** Every live job is taken, and all workers that have one have nothing to do with a suspended resource. */
  predicate NobodyResumes(s: State) {
    && !Untaken(s)
    && forall k :: k in s.workers && s.workers[k].job in s.row.live ==>
         var p := s.workers[k].phase; p.Building? || p.Recovering? || p.ProbingReady? || p.Done?
  }

  /**
    The steps that leave a resource unobserved.  A job is acknowledged that was
    the only observer, through another worker that still has it; the only worker
    acting for it is lost while an idle one keeps it; or a worker whose job is
    done already, or an operator, enters a state nobody is going to act on.
   */
  ghost predicate Loses(s: State, a: Action) {
    match a
    case Step(k, answer) =>
      && k in s.workers
      && var w := s.workers[k];
         (match w.phase
          case Done => !s.row.state.Final() && OnlyObserver(s, w.job)
          case Starting => w.job !in s.row.live && NobodyProvisions(s)
          case ProbingReady => answer.Later? && s.row.state.Ready? && w.job !in s.row.live && NobodyResumes(s)
          case _ => false)
    case Drop(k) =>
      && k in s.workers && !s.row.state.Final() && OnlyObserver(s, s.workers[k].job)
      && PhaseActs(s.workers[k].phase, s.row.state)
      && (exists l :: l in s.workers && l != k && s.workers[l].job == s.workers[k].job)
      && (forall l :: l in s.workers && l != k && s.workers[l].job == s.workers[k].job ==>
            !PhaseActs(s.workers[l].phase, s.row.state))
    case AdminSuspend => s.row.state.Ready? && NobodyResumes(s)
    case _ => false
  }

  lemma DeliverKeeps(s: State, k: nat, j: nat)
    requires Sound(s) && Observed(s)
    ensures Observed(Next(s, Deliver(k, j)))
  {
    var t := Next(s, Deliver(k, j));
    if t != s && !s.row.state.Final() {
      var i :| Observes(s, i);
      if i != j {
        SameObserver(s, t, i);
      } else if Held(s, j) {
        var l :| l in s.workers && s.workers[l].job == j && PhaseActs(s.workers[l].phase, s.row.state);
        HeldObserves(t, l);
      } else {
        HeldObserves(t, k);
      }
    }
  }

  lemma RequestKeeps(s: State, a: Action)
    requires Sound(s) && Observed(s) && (a.RequestTerminate? || a.RequestRestart?)
    ensures Observed(Next(s, a))
  {
    var t := Next(s, a);
    if t.row != s.row {
      forall l | l in t.workers ensures t.workers[l].job < |s.row.jobs| { assert WorkerOk(s, l); }
      FreshObserves(t, |s.row.jobs|);
    }
  }

  lemma DoneLoses(s: State, k: nat, answer: Answer)
    requires Sound(s) && Observed(s) && k in s.workers && s.workers[k].phase.Done?
    ensures !Observed(Next(s, Step(k, answer))) <==> Loses(s, Step(k, answer))
  {
    var t, j := Next(s, Step(k, answer)), s.workers[k].job;
    forall i: nat | i != j && i < |s.row.jobs| ensures Observes(s, i) <==> Observes(t, i) {
      SameObserver(s, t, i);
    }
  }

  lemma DropLoses(s: State, k: nat)
    requires Sound(s) && Observed(s) && k in s.workers
    ensures !Observed(Next(s, Drop(k))) <==> Loses(s, Drop(k))
  {
    var t, j := Next(s, Drop(k)), s.workers[k].job;
    assert WorkerOk(s, k);
    forall i: nat | i != j && i < |s.row.jobs| ensures Observes(s, i) <==> Observes(t, i) {
      SameObserver(s, t, i);
    }
    assert forall l :: l in t.workers <==> l in s.workers && l != k;
    if l :| l in s.workers && l != k && s.workers[l].job == j {
      assert Held(t, j);
      if Observes(s, j) && !PhaseActs(s.workers[k].phase, s.row.state) {
        var m :| m in s.workers && s.workers[m].job == j && PhaseActs(s.workers[m].phase, s.row.state);
        HeldObserves(t, m);
      }
      if m :| m in s.workers && m != k && s.workers[m].job == j && PhaseActs(s.workers[m].phase, s.row.state) {
        if j in s.row.live { HeldObserves(t, m); }
      }
    } else if Observes(s, j) {
      FreshObserves(t, j);
    }
  }

  /** A worker's transaction that enqueues, or that leaves the state alone, loses nothing. */
  lemma PlainStepKeeps(s: State, k: nat, answer: Answer)
    requires Sound(s) && Observed(s) && k in s.workers && !s.workers[k].phase.Done?
    requires var t := Next(s, Step(k, answer)); t.row.state == s.row.state || |t.row.jobs| > |s.row.jobs|
    ensures Observed(Next(s, Step(k, answer)))
  {
    var t := Next(s, Step(k, answer));
    forall l | l in t.workers ensures t.workers[l].job < |s.row.jobs| { assert WorkerOk(s, l); }
    if !t.row.state.Final() {
      if |t.row.jobs| > |s.row.jobs| && !t.row.state.Terminating? {
        FreshObserves(t, |t.row.jobs| - 1);
      } else {
        var i :| Observes(s, i);
        if i != s.workers[k].job {
          SameObserver(s, t, i);
        } else {
          var m :| m in s.workers && s.workers[m].job == i && PhaseActs(s.workers[m].phase, s.row.state);
          HeldObserves(t, m);
        }
      }
    }
  }

  /** The phases spelled out above are the ones that do not act on the state entered. */
  lemma NobodyMeans(s: State)
    ensures NobodyProvisions(s) <==> !Untaken(s) && !Attended(s, Provisioning)
    ensures NobodyResumes(s) <==> !Untaken(s) && !Attended(s, Suspended)
  {
  }

  /** The two state entries without a job of their own are observed through the worker that makes them. */
  lemma EntryLoses(s: State, k: nat, answer: Answer)
    requires Sound(s) && Observed(s) && k in s.workers && !s.workers[k].phase.Done?
    requires var t := Next(s, Step(k, answer)); t.row.state != s.row.state && t.row.jobs == s.row.jobs
    ensures !Observed(Next(s, Step(k, answer))) <==> Loses(s, Step(k, answer))
  {
    var t := Next(s, Step(k, answer));
    if !t.row.state.Final() {
      NextSound(s, Step(k, answer));
      TakenAlike(s, t);
      NobodyMeans(s);
      EnteredObserved(t);
      if s.workers[k].job in s.row.live {
        HeldObserves(t, k);
      } else {
        OthersAlike(s, t, k);
      }
    }
  }

  lemma OthersAlike(s: State, t: State, k: nat)
    requires t.row.live == s.row.live && k in s.workers && k in t.workers && s.workers[k].job == t.workers[k].job
    requires s.workers[k].job !in s.row.live && t.workers == s.workers[k := t.workers[k]]
    ensures Attended(t, t.row.state) <==> Attended(s, t.row.state)
  {
    if l :| l in s.workers && s.workers[l].job in s.row.live && PhaseActs(s.workers[l].phase, t.row.state) {
      assert t.workers[l] == s.workers[l];
    }
    if l :| l in t.workers && t.workers[l].job in t.row.live && PhaseActs(t.workers[l].phase, t.row.state) {
      assert s.workers[l] == t.workers[l];
    }
  }

  lemma TakenAlike(s: State, t: State)
    requires t.row.live == s.row.live && t.workers.Keys == s.workers.Keys
    requires forall k :: k in s.workers ==> t.workers[k].job == s.workers[k].job
    ensures Untaken(t) <==> Untaken(s)
  {
    forall j: nat ensures Held(s, j) <==> Held(t, j) {
      if k :| k in s.workers && s.workers[k].job == j { assert k in t.workers; }
      if k :| k in t.workers && t.workers[k].job == j { assert k in s.workers; }
    }
  }

  lemma StepLoses(s: State, k: nat, answer: Answer)
    requires Sound(s) && Observed(s) && k in s.workers && !s.workers[k].phase.Done?
    ensures !Observed(Next(s, Step(k, answer))) <==> Loses(s, Step(k, answer))
  {
    var t := Next(s, Step(k, answer));
    if t.row.state == s.row.state || |t.row.jobs| > |s.row.jobs| {
      PlainStepKeeps(s, k, answer);
      if s.workers[k].phase.Starting? {
        NobodyMeans(s);
        EnteredObserved(s);
      }
    } else {
      EntryLoses(s, k, answer);
    }
  }

  lemma SuspendLoses(s: State)
    requires Sound(s) && Observed(s)
    ensures !Observed(Next(s, AdminSuspend)) <==> Loses(s, AdminSuspend)
  {
    var t := Next(s, AdminSuspend);
    NextSound(s, AdminSuspend);
    TakenAlike(s, t);
    NobodyMeans(s);
    if s.row.state.Ready? { EnteredObserved(t); }
  }

  lemma NextLoses(s: State, a: Action)
    requires Sound(s) && Observed(s)
    ensures !Observed(Next(s, a)) <==> Loses(s, a)
  {
    match a
    case Deliver(k, j) => DeliverKeeps(s, k, j);
    case Step(k, answer) =>
      if k in s.workers {
        if s.workers[k].phase.Done? { DoneLoses(s, k, answer); } else { StepLoses(s, k, answer); }
      }
    case Drop(k) => if k in s.workers { DropLoses(s, k); } else { assert s.workers - {k} == s.workers; }
    case RequestTerminate => RequestKeeps(s, a);
    case RequestRestart => RequestKeeps(s, a);
    case AdminSuspend => SuspendLoses(s);
  }

  // ---------------------------------------------------------------- theorems

  /** Exactly when a step leaves an observed resource unobserved, in any run, with duplicate deliveries. */
  lemma ObservationLostExactlyWhen(acts: seq<Action>, a: Action)
    requires Observed(Exec(acts))
    ensures !Observed(Next(Exec(acts), a)) <==> Loses(Exec(acts), a)
  {
    ExecSound(acts);
    NextLoses(Exec(acts), a);
  }

  /** So in a run without such a step the resource is observed throughout. */
  lemma {:induction false} ObservedUnlessLost(acts: seq<Action>)
    requires forall i :: 0 <= i < |acts| ==> !Loses(Exec(acts[..i]), acts[i])
    ensures Observed(Exec(acts))
    decreases |acts|
  {
    if acts == [] {
      assert Observes(INIT, 0);
    } else {
      var before := acts[..|acts| - 1];
      forall i | 0 <= i < |before| ensures !Loses(Exec(before[..i]), before[i]) {
        assert before[..i] == acts[..i];
        assert !Loses(Exec(acts[..i]), acts[i]);
      }
      ObservedUnlessLost(before);
      assert !Loses(Exec(acts[..|before|]), acts[|before|]);
      ObservationLostExactlyWhen(before, acts[|before|]);
    }
  }

  /** Each worker has a job of its own, not done yet. */
  ghost predicate OneEach(s: State) {
    && (forall k :: k in s.workers ==> s.workers[k].job in s.row.live)
    && (forall k, l :: k in s.workers && l in s.workers && s.workers[k].job == s.workers[l].job ==> k == l)
  }

  lemma OrderlyKeeps(s: State, a: Action)
    requires Sound(s) && OneEach(s) && OrderlyStep(s, a)
    ensures OneEach(Next(s, a)) && !Loses(s, a)
  {
    forall k | k in s.workers ensures s.workers[k].job < |s.row.jobs| { assert WorkerOk(s, k); }
  }

  lemma {:induction false} OrderlyRun(acts: seq<Action>)
    requires Orderly(acts)
    ensures OneEach(Exec(acts)) && Observed(Exec(acts))
    decreases |acts|
  {
    if acts == [] {
      assert Observes(INIT, 0);
    } else {
      var before, n := acts[..|acts| - 1], |acts| - 1;
      forall i | 0 <= i < |before| ensures OrderlyStep(Exec(before[..i]), before[i]) {
        assert before[..i] == acts[..i];
        assert OrderlyStep(Exec(acts[..i]), acts[i]);
      }
      OrderlyRun(before);
      ExecSound(before);
      assert OrderlyStep(Exec(acts[..n]), acts[n]);
      OrderlyKeeps(Exec(before), acts[n]);
      ObservationLostExactlyWhen(before, acts[n]);
    }
  }

  /**
    No resource goes unobserved: after every orderly run a resource that is
    neither terminated nor failed has a live job, and one that acts on it: if
    nobody holds it, its next reading leads to a worker with something to do.
   */
  lemma NeverUnobserved(acts: seq<Action>)
    requires Orderly(acts) && !Exec(acts).row.state.Final()
    ensures var s := Exec(acts);
            exists j :: j in s.row.live && j < |s.row.jobs| && Observes(s, j)
                        && (!Held(s, j) ==> !FirstPhase(s.row.jobs[j], s.row.state).Done?)
  {
    OrderlyRun(acts);
    var s := Exec(acts);
    var j :| Observes(s, j);
  }

  /** A provisioning worker that read the resource earlier goes on. */
  predicate GoesOn(s: State, a: Action) {
    a.Step? && a.worker in s.workers && s.workers[a.worker].phase.Starting?
  }

  /** A worker that read it earlier learns that the provider failed. */
  predicate GivesUp(s: State, a: Action) {
    && a.Step? && a.worker in s.workers && a.answer.Bad?
    && var p := s.workers[a.worker].phase;
       p.Building? || p.Restarting? || p.Recovering? || p.ProbingSuspended? || p.ProbingReady?
  }

  /** Exactly when a terminated resource comes back, and exactly when it is called something else at all. */
  lemma RevivedExactlyWhen(s: State, a: Action)
    requires s.row.state.Terminated?
    ensures !Next(s, a).row.state.Final() <==> GoesOn(s, a)
    ensures !Next(s, a).row.state.Terminated? <==> GoesOn(s, a) || GivesUp(s, a)
  {
  }

  predicate UndoneAt(acts: seq<Action>, j: int)
    requires 0 <= j < |acts|
  {
    GoesOn(Exec(acts[..j]), acts[j]) || GivesUp(Exec(acts[..j]), acts[j])
  }

  predicate NoneUndone(acts: seq<Action>, i: nat) {
    forall j :: i <= j < |acts| ==> !UndoneAt(acts, j)
  }

  lemma NoneUndoneBefore(acts: seq<Action>, i: nat)
    requires i < |acts| && NoneUndone(acts, i)
    ensures NoneUndone(acts[..|acts| - 1], i)
  {
    var before := acts[..|acts| - 1];
    forall j | i <= j < |before| ensures !UndoneAt(before, j) {
      assert before[..j] == acts[..j];
      assert !UndoneAt(acts, j);
    }
  }

  lemma TerminatedStep(acts: seq<Action>)
    requires acts != [] && Exec(acts[..|acts| - 1]).row.state.Terminated? && !UndoneAt(acts, |acts| - 1)
    ensures Exec(acts).row.state.Terminated?
  {
    RevivedExactlyWhen(Exec(acts[..|acts| - 1]), acts[|acts| - 1]);
  }

  /** So in a run without such a step terminated is final. */
  lemma {:induction false} TerminatedStays(acts: seq<Action>, i: nat)
    requires i <= |acts| && Exec(acts[..i]).row.state.Terminated? && NoneUndone(acts, i)
    ensures Exec(acts).row.state.Terminated?
    decreases |acts|
  {
    if i == |acts| {
      assert acts[..i] == acts;
    } else {
      assert acts[..|acts| - 1][..i] == acts[..i];
      NoneUndoneBefore(acts, i);
      TerminatedStays(acts[..|acts| - 1], i);
      TerminatedStep(acts);
    }
  }

  // ---------------------------------------------------------------- what each step does

  /** A worker in this phase gets this answer. */
  predicate Hears(s: State, a: Action, phase: Phase, answer: Answer) {
    a.Step? && a.worker in s.workers && s.workers[a.worker].phase == phase && a.answer == answer
  }

  predicate HearsNoFailure(s: State, a: Action, phase: Phase) {
    Hears(s, a, phase, Good) || Hears(s, a, phase, Later)
  }

  predicate MakesReady(s: State, a: Action) {
    || (HearsNoFailure(s, a, Building) && s.row.state.Provisioning?)
    || (HearsNoFailure(s, a, Restarting) && !s.row.state.Terminated? && !s.row.state.Failed?)
    || (Hears(s, a, ProbingSuspended, Good) && s.row.state.Suspended?)
  }

  predicate MakesFailed(s: State, a: Action) {
    || Hears(s, a, Building, Bad) || Hears(s, a, Restarting, Bad) || Hears(s, a, Recovering, Bad)
    || Hears(s, a, ProbingSuspended, Bad) || Hears(s, a, ProbingReady, Bad)
  }

  predicate MakesSuspended(s: State, a: Action) {
    s.row.state.Ready? && (a.AdminSuspend? || Hears(s, a, ProbingReady, Later))
  }

  predicate MakesProvisioning(s: State, a: Action) {
    || (a.Step? && a.worker in s.workers && s.workers[a.worker].phase.Starting?)
    || (a.RequestRestart?
        && (s.row.state.Requested? || s.row.state.Provisioning? || s.row.state.Ready? || s.row.state.Suspended?))
  }

  predicate MakesTerminated(s: State, a: Action) {
    a.Step? && a.worker in s.workers && s.workers[a.worker].phase.Destroying?
  }

  /** Exactly which steps enter which state; requested is entered by none. */
  lemma EntersExactly(s: State, a: Action)
    ensures var before, after := s.row.state, Next(s, a).row.state;
            && (!before.Ready? ==> (after.Ready? <==> MakesReady(s, a)))
            && (!before.Failed? ==> (after.Failed? <==> MakesFailed(s, a)))
            && (!before.Suspended? ==> (after.Suspended? <==> MakesSuspended(s, a)))
            && (!before.Provisioning? ==> (after.Provisioning? <==> MakesProvisioning(s, a)))
            && (!before.Terminating? ==> (after.Terminating? <==> a.RequestTerminate? && !before.Terminated?))
            && (!before.Terminated? ==> (after.Terminated? <==> MakesTerminated(s, a)))
            && (after.Requested? ==> before.Requested?)
  {
  }

  /** The jobs a step enqueues. */
  function Enqueued(s: State, a: Action): seq<Job> {
    if MakesReady(s, a) then [Reconcile]
    else if a.RequestTerminate? && !s.row.state.Terminated? then [Terminate]
    else if a.RequestRestart? && MakesProvisioning(s, a) then [Restart]
    else if Hears(s, a, Recovering, Good) && (s.row.state.Requested? || s.row.state.Provisioning?)
    then [Provision, Reconcile]
    else if || Hears(s, a, Recovering, Later) || Hears(s, a, ProbingSuspended, Later)
            || (Hears(s, a, ProbingReady, Good) && s.row.state.Ready?)
            || (a.Step? && a.worker in s.workers && s.workers[a.worker].phase.Rearming?)
    then [Reconcile]
    else []
  }

  lemma JobsAfter(s: State, a: Action)
    ensures Next(s, a).row.jobs == s.row.jobs + Enqueued(s, a)
  {
    assert s.row.jobs + [] == s.row.jobs;
    assert s.row.jobs + [Provision] + [Reconcile] == s.row.jobs + [Provision, Reconcile];
  }

  predicate IsDoneWith(s: State, a: Action, j: nat) {
    a.Step? && a.worker in s.workers && s.workers[a.worker] == Worker(j, Done)
  }

  lemma LiveAfter(s: State, a: Action, j: nat)
    ensures var t := Next(s, a);
            |s.row.jobs| <= |t.row.jobs|
            && (j < |s.row.jobs| ==> (j in t.row.live <==> j in s.row.live && !IsDoneWith(s, a, j)))
            && (|s.row.jobs| <= j < |t.row.jobs| ==> j in t.row.live)
  {
  }

  /** What a step enqueues is live, and a job stops being live exactly when its worker is done with it. */
  lemma EnqueuesExactly(s: State, a: Action, j: nat)
    ensures var t := Next(s, a);
            && t.row.jobs == s.row.jobs + Enqueued(s, a)
            && (j < |t.row.jobs| ==>
                  (j in t.row.live <==> |s.row.jobs| <= j || (j in s.row.live && !IsDoneWith(s, a, j))))
  {
    JobsAfter(s, a);
    LiveAfter(s, a, j);
  }

  /** Where a worker goes on: building follows starting, rearming follows a suspension, anything else is the end. */
  lemma GoesOnExactly(s: State, k: nat, answer: Answer)
    requires k in s.workers
    ensures var t, w := Next(s, Step(k, answer)), s.workers[k];
            && (k in t.workers <==> !w.phase.Done?)
            && (k in t.workers ==>
                  && t.workers[k].job == w.job
                  && (t.workers[k].phase.Building? <==> w.phase.Starting?)
                  && (t.workers[k].phase.Rearming? <==> w.phase.ProbingReady? && answer.Later?)
                  && (t.workers[k].phase.Done? <==> !w.phase.Starting? && !(w.phase.ProbingReady? && answer.Later?)))
            && forall j :: j in s.workers && j != k ==> j in t.workers && t.workers[j] == s.workers[j]
  {
  }

  /** What a worker sets out to do, from the job and the state it finds; it does nothing on finding the job done. */
  lemma SetsOutExactly(s: State, k: nat, j: nat)
    requires k !in s.workers && j in s.row.live && j < |s.row.jobs|
    ensures var t, job, seen := Next(s, Deliver(k, j)), s.row.jobs[j], s.row.state;
            && t.row == s.row && k in t.workers && t.workers[k].job == j
            && (t.workers[k].phase.Done? <==>
                  || (job.Provision? && (seen.Ready? || seen.Terminated? || seen.Failed?))
                  || (job.Restart? && (seen.Terminated? || seen.Failed?))
                  || (job.Terminate? && seen.Terminated?)
                  || (job.Reconcile? && (seen.Terminating? || seen.Terminated? || seen.Failed?)))
            && (t.workers[k].phase.Starting? ==> job.Provision?) && (t.workers[k].phase.Restarting? ==> job.Restart?)
            && (t.workers[k].phase.Destroying? ==> job.Terminate?)
            && (t.workers[k].phase.ProbingReady? <==> job.Reconcile? && seen.Ready?)
            && (t.workers[k].phase.ProbingSuspended? <==> job.Reconcile? && seen.Suspended?)
            && (t.workers[k].phase.Recovering? <==> job.Reconcile? && (seen.Requested? || seen.Provisioning?))
            && !t.workers[k].phase.Building? && !t.workers[k].phase.Rearming?
  {
  }

  // ---------------------------------------------------------------- runs that are not orderly

  ghost predicate Reachable(s: State) {
    exists acts :: Exec(acts) == s
  }

  lemma Then(s: State, a: Action, t: State)
    requires Reachable(s) && Next(s, a) == t
    ensures Reachable(t)
  {
    var acts :| Exec(acts) == s;
    assert (acts + [a])[..|acts|] == acts;
    assert Exec(acts + [a]) == t;
  }

  const JOBS: seq<Job> := [Provision, Reconcile, Reconcile]

  /** One worker's steps from a finished phase: its job is done. */
  lemma Acknowledged(s: State, k: nat, t: State)
    requires Reachable(s) && k in s.workers && s.workers[k].phase.Done?
    requires t == State(s.row.(live := s.row.live - {s.workers[k].job}), s.workers - {k})
    ensures Reachable(t)
  {
    Then(s, Step(k, Good), t);
  }

  /** The provisioning job is delivered, to a second worker too if twice is set. */
  lemma Delivered(twice: bool)
    ensures Reachable(State(REQUESTED, if twice then map[0 := Worker(0, Starting), 3 := Worker(0, Starting)]
                                       else map[0 := Worker(0, Starting)]))
  {
    assert Exec([]) == INIT;
    var s := State(REQUESTED, map[0 := Worker(0, Starting)]);
    Then(INIT, Deliver(0, 0), s);
    if twice { Then(s, Deliver(3, 0), State(REQUESTED, map[0 := Worker(0, Starting), 3 := Worker(0, Starting)])); }
  }

  /** Ready, with two watchers that have both read it as ready and perhaps a second provisioning worker. */
  function Watched(extra: map<nat, Worker>): State {
    State(Row(Ready, JOBS, {0, 1, 2}),
          extra + map[0 := Worker(0, Done), 1 := Worker(1, ProbingReady), 2 := Worker(2, ProbingReady)])
  }

  lemma ReachesReady(extra: map<nat, Worker>)
    requires extra == map[] || extra == map[3 := Worker(0, Starting)]
    ensures Reachable(State(Row(Ready, JOBS, {0, 1, 2}), extra + map[0 := Worker(0, Done)]))
  {
    Delivered(extra != map[]);
    var s := State(REQUESTED, extra + map[0 := Worker(0, Starting)]);
    assert s.workers == if extra != map[] then map[0 := Worker(0, Starting), 3 := Worker(0, Starting)]
                        else map[0 := Worker(0, Starting)];
    var s1 := State(REQUESTED.(state := Provisioning), extra + map[0 := Worker(0, Building)]);
    Then(s, Step(0, Good), s1);
    Then(s1, Step(0, Good), State(Row(Ready, JOBS, {0, 1, 2}), extra + map[0 := Worker(0, Done)]));
  }

  lemma ReachesWatched(extra: map<nat, Worker>)
    requires extra == map[] || extra == map[3 := Worker(0, Starting)]
    ensures Reachable(Watched(extra))
  {
    ReachesReady(extra);
    var row := Row(Ready, JOBS, {0, 1, 2});
    var s := State(row, extra + map[0 := Worker(0, Done)]);
    var t := State(row, extra + map[0 := Worker(0, Done), 1 := Worker(1, ProbingReady)]);
    assert s.workers[1 := Worker(1, ProbingReady)] == t.workers;
    Then(s, Deliver(1, 1), t);
    assert t.workers[2 := Worker(2, ProbingReady)] == Watched(extra).workers;
    Then(t, Deliver(2, 2), Watched(extra));
  }

  lemma WatchersFinish(state: ResourceState, extra: map<nat, Worker>)
    requires !state.Ready?
    requires Reachable(State(Row(state, JOBS, {0, 1, 2}), Watched(extra).workers))
    ensures Reachable(State(Row(state, JOBS, {0, 1, 2}),
                            extra + map[0 := Worker(0, Done), 1 := Worker(1, Done), 2 := Worker(2, Done)]))
  {
    var row := Row(state, JOBS, {0, 1, 2});
    var s := State(row, Watched(extra).workers);
    var t := State(row, extra + map[0 := Worker(0, Done), 1 := Worker(1, Done), 2 := Worker(2, ProbingReady)]);
    var u := State(row, extra + map[0 := Worker(0, Done), 1 := Worker(1, Done), 2 := Worker(2, Done)]);
    assert s.workers[1 := Worker(1, Done)] == t.workers && t.workers[2 := Worker(2, Done)] == u.workers;
    Then(s, Step(1, Good), t);
    Then(t, Step(2, Good), u);
  }

  /** Once the resource is not ready any more, the two watchers and the first worker end without a trace. */
  lemma WatchersStop(state: ResourceState, extra: map<nat, Worker>)
    requires !state.Ready? && 0 !in extra && 1 !in extra && 2 !in extra
    requires Reachable(State(Row(state, JOBS, {0, 1, 2}), Watched(extra).workers))
    ensures Reachable(State(Row(state, JOBS, {}), extra))
  {
    WatchersFinish(state, extra);
    var s := State(Row(state, JOBS, {0, 1, 2}),
                   extra + map[0 := Worker(0, Done), 1 := Worker(1, Done), 2 := Worker(2, Done)]);
    var t := State(Row(state, JOBS, {1, 2}), extra + map[1 := Worker(1, Done), 2 := Worker(2, Done)]);
    var u := State(Row(state, JOBS, {2}), extra + map[2 := Worker(2, Done)]);
    assert s.workers - {0} == t.workers && t.workers - {1} == u.workers && u.workers - {2} == extra;
    assert {0, 1, 2} - {0} == {1, 2} && {1, 2} - {1} == {2};
    Acknowledged(s, 0, t);
    Acknowledged(t, 1, u);
    Acknowledged(u, 2, State(Row(state, JOBS, {}), extra));
  }

  /** A provisioning worker reads the request, the resource is terminated meanwhile, and the worker goes on. */
  lemma RevivedRun()
    ensures exists s, a :: Reachable(s) && s.row.state.Terminated? && Next(s, a).row.state.Provisioning?
  {
    Delivered(false);
    var s := State(REQUESTED, map[0 := Worker(0, Starting)]);
    var row := Row(Terminating, [Provision, Reconcile, Terminate], {0, 1, 2});
    var t := State(row, s.workers);
    Then(s, RequestTerminate, t);
    var u := State(row, map[0 := Worker(0, Starting), 1 := Worker(2, Destroying)]);
    Then(t, Deliver(1, 2), u);
    var v := State(row.(state := Terminated), map[0 := Worker(0, Starting), 1 := Worker(2, Done)]);
    Then(u, Step(1, Good), v);
    assert Next(v, Step(0, Good)).row.state.Provisioning?;
  }

  /** An operator suspends while the watchers are asking the provider: they find it not ready and stop. */
  lemma SuspendedUnobserved()
    ensures Reachable(State(Row(Suspended, JOBS, {}), map[]))
  {
    ReachesWatched(map[]);
    Then(Watched(map[]), AdminSuspend, State(Row(Suspended, JOBS, {0, 1, 2}), Watched(map[]).workers));
    WatchersStop(Suspended, map[]);
  }

  /** One provisioning job at two workers: the slower one takes the resource back to provisioning and is lost. */
  lemma DuplicateUnobserved()
    ensures Reachable(State(Row(Provisioning, JOBS, {}), map[]))
  {
    var extra := map[3 := Worker(0, Building)];
    ReachesWatched(map[3 := Worker(0, Starting)]);
    var s := State(Row(Provisioning, JOBS, {0, 1, 2}), Watched(extra).workers);
    Then(Watched(map[3 := Worker(0, Starting)]), Step(3, Good), s);
    WatchersStop(Provisioning, extra);
    Then(State(Row(Provisioning, JOBS, {}), extra), Drop(3), State(Row(Provisioning, JOBS, {}), map[]));
  }

  // ---------------------------------------------------------------- a worker running alone

  function Rank(phase: Phase): nat {
    match phase
    case Starting => 2
    case ProbingReady => 2
    case Done => 0
    case _ => 1
  }

  /** A worker's steps from a phase on, with nobody in between. */
  function RunAlone(row: Row, phase: Phase, answer: Answer): Row
    decreases Rank(phase)
  {
    if phase.Done? then row else var (next, rest) := StepTx(row, phase, answer); RunAlone(next, rest, answer)
  }

  /** The lifecycle service: each job's worker as one routine, the provider's answer given. */
  class Service {
    var state: ResourceState
    var jobs: seq<Job>
    var live: set<nat>

    function Current(): Row
      reads this
    {
      Row(state, jobs, live)
    }

    constructor Request()
      ensures Current() == REQUESTED
    {
      state := Requested;
      jobs, live := [Job.Provision, Job.Reconcile], {0, 1};
    }

    method Submit(job: Job)
      modifies `jobs, `live
      ensures Current() == Enqueue(old(Current()), job)
    {
      jobs, live := jobs + [job], live + {|jobs|};
    }

    method RequestTerminate()
      modifies this
      ensures Current() == RequestTerminateTx(old(Current()))
      ensures state == (if old(state).Terminated? then Terminated else Terminating)
      ensures jobs == old(jobs) + if old(state).Terminated? then [] else [Job.Terminate]
    {
      if state.Terminated? { return; }
      state := Terminating;
      Submit(Job.Terminate);
    }

    method RequestRestart() returns (ok: bool)
      modifies this
      ensures Current() == RequestRestartTx(old(Current()))
      ensures ok <==> !(old(state).Terminated? || old(state).Failed? || old(state).Terminating?)
      ensures state == (if ok then Provisioning else old(state)) && jobs == old(jobs) + if ok then [Job.Restart] else []
    {
      if state.Final() || state.Terminating? { return false; }
      state := Provisioning;
      Submit(Job.Restart);
      ok := true;
    }

    method Fail()
      modifies this`state
      ensures Current() == old(Current()).(state := Failed)
    {
      state := Failed;
    }

    method Provision(answer: Answer)
      modifies this
      ensures Current() == RunAlone(old(Current()), FirstPhase(Job.Provision, old(state)), answer)
      ensures var idle := old(state).Ready? || old(state).Terminated? || old(state).Failed?;
              && state == (if idle then old(state) else if answer.Bad? then Failed else Ready)
              && jobs == old(jobs) + (if idle || answer.Bad? then [] else [Job.Reconcile])
    {
      if state.Ready? || state.Final() { return; }
      state := Provisioning;
      if answer.Bad? {
        Fail();
        return;
      }
      state := Ready;
      Submit(Job.Reconcile);
    }

    method Restart(answer: Answer)
      modifies this
      ensures Current() == RunAlone(old(Current()), FirstPhase(Job.Restart, old(state)), answer)
      ensures var idle := old(state).Terminated? || old(state).Failed?;
              && state == (if idle then old(state) else if answer.Bad? then Failed else Ready)
              && jobs == old(jobs) + (if idle || answer.Bad? then [] else [Job.Reconcile])
    {
      if state.Final() { return; }
      if answer.Bad? {
        Fail();
        return;
      }
      state := Ready;
      Submit(Job.Reconcile);
    }

    method Terminate(answer: Answer)
      modifies this
      ensures Current() == RunAlone(old(Current()), FirstPhase(Job.Terminate, old(state)), answer)
      ensures state.Terminated? && jobs == old(jobs)
    {
      if state.Terminated? { return; }
      state := Terminated;
    }

    method RecoverProvisioning(answer: Answer)
      requires state.Requested? || state.Provisioning?
      modifies this
      ensures Current() == RunAlone(old(Current()), Recovering, answer)
      ensures state == (if answer.Bad? then Failed else old(state))
      ensures jobs == old(jobs) + (match answer
                                   case Good => [Job.Provision, Job.Reconcile]
                                   case Bad => []
                                   case Later => [Job.Reconcile])
    {
      match answer {
        case Later => Submit(Job.Reconcile);
        case Bad => Fail();
        case Good =>
          Submit(Job.Provision);
          Submit(Job.Reconcile);
      }
    }

    method ReconcileSuspended(answer: Answer)
      requires state.Suspended?
      modifies this
      ensures Current() == RunAlone(old(Current()), ProbingSuspended, answer)
      ensures state == match answer case Good => Ready case Bad => Failed case Later => Suspended
      ensures jobs == old(jobs) + if answer.Bad? then [] else [Job.Reconcile]
    {
      match answer {
        case Later => Submit(Job.Reconcile);
        case Bad => Fail();
        case Good =>
          state := Ready;
          Submit(Job.Reconcile);
      }
    }

    method Reconcile(answer: Answer)
      modifies this
      ensures Current() == RunAlone(old(Current()), FirstPhase(Job.Reconcile, old(state)), answer)
      ensures old(state).Ready? ==> state == match answer case Good => Ready case Bad => Failed case Later => Suspended
      ensures old(state).Ready? ==> jobs == old(jobs) + if answer.Bad? then [] else [Job.Reconcile]
      ensures old(state).Terminating? || old(state).Terminated? || old(state).Failed? ==> Current() == old(Current())
    {
      if state.Requested? || state.Provisioning? {
        RecoverProvisioning(answer);
        return;
      }
      if state.Suspended? {
        ReconcileSuspended(answer);
        return;
      }
      if !state.Ready? { return; }
      match answer {
        case Later =>
          state := Suspended;
          Submit(Job.Reconcile);
        case Bad => Fail();
        case Good => Submit(Job.Reconcile);
      }
    }
  }
}

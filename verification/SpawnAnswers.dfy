/**
  What a spawn tells its step.  A redelivered step is promised the child of its
  earlier delivery; this compares every answer with the one an indivisible spawn
  would give at the same moment.
 */
module SpawnAnswers {
  import opened Options
  import opened Policy
  import opened SpawnTree

  /** The request of the spawn that a step of the machine is about. */
  function Asked(s: State, a: Action): Option<Request> {
    match a
    case Root(_, _) => None
    case Look(k, req) => if k in s.spawners then None else Some(req)
    case _ => if a.spawner in s.spawners then Some(s.spawners[a.spawner].req) else None
  }

  /** The answer a spawn gets at the step that ends it; a dropped one gets none. */
  ghost function Answered(s: State, a: Action): Option<Verdict> {
    var req := Asked(s, a);
    if req.None? then None else
    var key := KeyOf(req.value);
    match a
    case Look(_, _) =>
      if !Permitted(s.tree, req.value) then Some(Denied)
      else if Spawned(s.tree, key) then Some(Adopted(ChildWith(s.tree, key)))
      else None
    case Count(k) => if At(s, k, Locked) && Full(s.tree, req.value.parent) then Some(Denied) else None
    case Check(k) => if At(s, k, Counted) && Spawned(s.tree, key) then Some(Adopted(ChildWith(s.tree, key))) else None
    case Insert(k) =>
      if At(s, k, Checked) && !InFlight(s, req.value.child, key) && (req.value.child in s.tree || Spawned(s.tree, key))
      then Some(Conflict) else None
    case Commit(k) => if At(s, k, Inserted) then Some(Created) else None
    case _ => None
  }

  /** Ends are answers: a spawner that leaves other than by being dropped has been told something. */
  lemma EndsAnswered(s: State, a: Action)
    requires !a.Root? && !a.Look? && !a.Drop? && a.spawner in s.spawners
    ensures a.spawner !in Next(s, a).spawners <==> Answered(s, a).Some?
  {
  }

  // ---------------------------------------------------------------- keys stay free under the lock

  /** Run ids are UUIDs: no colon. */
  predicate Plain(tree: Tree) {
    forall p :: p in tree ==> ':' !in p
  }

  predicate Sure(phase: Phase) { phase.Checked? || phase.Inserted? }

  /** A spawner that has found its key free still finds it free. */
  ghost predicate KeysFree(s: State) {
    forall k {:trigger s.spawners[k]} :: k in s.spawners && Sure(s.spawners[k].phase) ==>
      !Spawned(s.tree, KeyOf(s.spawners[k].req))
  }

  lemma CommitLeavesKey(s: State, j: nat, k: nat)
    requires Inv(s) && Plain(s.tree) && At(s, j, Inserted) && k in s.spawners && k != j
    requires Sure(s.spawners[k].phase) && !Spawned(s.tree, KeyOf(s.spawners[k].req))
    ensures !Spawned(Next(s, Commit(j)).tree, KeyOf(s.spawners[k].req))
  {
    var a, b := s.spawners[j].req, s.spawners[k].req;
    assert Exclusive(s.spawners[j], s.spawners[k]);
    assert SpawnerOk(s, j) && SpawnerOk(s, k);
    if KeyOf(a) == KeyOf(b) {
      KeyDetermines(a.parent, a.step, a.call, b.parent, b.step, b.call);
    }
  }

  lemma NextKeysFree(s: State, a: Action)
    requires Inv(s) && Plain(s.tree) && KeysFree(s)
    ensures KeysFree(Next(s, a))
  {
    var t := Next(s, a);
    forall k | k in t.spawners && Sure(t.spawners[k].phase) ensures !Spawned(t.tree, KeyOf(t.spawners[k].req)) {
      if a.Commit? && At(s, a.spawner, Inserted) {
        CommitLeavesKey(s, a.spawner, k);
      }
    }
  }

  lemma {:induction false} ExecKeysFree(acts: seq<Action>)
    requires Plain(Exec(acts).tree)
    ensures KeysFree(Exec(acts))
    decreases |acts|
  {
    if acts != [] {
      var s := Exec(acts[..|acts| - 1]);
      assert forall p :: p in s.tree ==> p in Exec(acts).tree;
      ExecInv(acts[..|acts| - 1]);
      ExecKeysFree(acts[..|acts| - 1]);
      NextKeysFree(s, acts[|acts| - 1]);
    }
  }

  // ---------------------------------------------------------------- theorems

  /** Under the parent's lock an insert never meets its own key; only a run id can stand in its way. */
  lemma InsertMeetsNoKey(acts: seq<Action>, k: nat)
    requires Plain(Exec(acts).tree) && At(Exec(acts), k, Checked)
    ensures !Spawned(Exec(acts).tree, KeyOf(Exec(acts).spawners[k].req))
  {
    ExecKeysFree(acts);
  }

  /**
    Exactly when a spawn is told something else than an indivisible spawn would
    be told: it counts its parent's children as too many, and its own child, made
    by another delivery since it looked, is one of them.
   */
  lemma AnswerDiffersExactlyWhen(acts: seq<Action>, a: Action)
    requires Plain(Exec(acts).tree) && Answered(Exec(acts), a).Some?
    ensures var s := Exec(acts);
            var req := Asked(s, a).value;
            Answered(s, a).value != WholeAnswer(s.tree, req) <==> a.Count? && Spawned(s.tree, KeyOf(req))
  {
    var s := Exec(acts);
    ExecInv(acts);
    ExecKeysFree(acts);
    if !a.Look? { assert SpawnerOk(s, a.spawner); }
  }

  /** So a redelivered spawn adopts its child wherever it looks, unless it counts first and its parent is full. */
  lemma RedeliveryAdoptsExactlyWhen(acts: seq<Action>, a: Action)
    requires Plain(Exec(acts).tree) && Answered(Exec(acts), a).Some?
    requires Permitted(Exec(acts).tree, Asked(Exec(acts), a).value)
    requires Spawned(Exec(acts).tree, KeyOf(Asked(Exec(acts), a).value))
    ensures var s := Exec(acts);
            var answer := Answered(s, a).value;
            && (answer.Adopted? <==> !a.Count?)
            && (answer.Adopted? ==> answer.child == ChildWith(s.tree, KeyOf(Asked(s, a).value)))
            && (a.Count? ==> answer.Denied? && Full(s.tree, Asked(s, a).value.parent))
  {
    AnswerDiffersExactlyWhen(acts, a);
  }

  // ---------------------------------------------------------------- a redelivery that is denied its own child

  ghost predicate Reachable(s: State) {
    exists acts :: Exec(acts) == s
  }

  lemma Then(s: State, a: Action, t: State)
    requires Reachable(s) && Next(s, a) == t
    ensures Reachable(t)
  {
    var acts :| Exec(acts) == s;
    assert (acts + [a])[..|acts|] == acts;
    assert Exec(acts + [a]) == t;
  }

  const P: RunId := "p"
  const ONE := RunPolicy([], [], [], 1, true)
  const CALL := Request(P, 0, "call", "c", ChildSpec(None, None))
  const AGAIN := CALL.(child := "d")
  const ROOT: Node := Node(None, 0, "", ONE)
  const PARENT: Tree := map[P := ROOT]
  const FAMILY: Tree := map[P := ROOT, "c" := NodeOf(CALL, ONE)]

  /** Two deliveries of one call have looked; the first is in the given phase. */
  function Twice(phase: Phase): State {
    State(PARENT, map[0 := Spawner(CALL, ONE, phase), 1 := Spawner(AGAIN, ONE, Looked)])
  }

  lemma NotYet()
    ensures !Spawned(PARENT, KeyOf(CALL)) && KeyOf(CALL) == KeyOf(AGAIN)
    ensures Children(PARENT, P) == {} && !Full(PARENT, P)
    ensures Permitted(PARENT, CALL) && Permitted(PARENT, AGAIN)
  {
  }

  lemma BothLook()
    ensures Reachable(Twice(Looked))
  {
    NotYet();
    assert Exec([]) == INIT;
    Then(INIT, Root(P, ONE), State(PARENT, map[]));
    var one := State(PARENT, map[0 := Spawner(CALL, ONE, Looked)]);
    Then(State(PARENT, map[]), Look(0, CALL), one);
    Then(one, Look(1, AGAIN), Twice(Looked));
  }

  lemma FirstLocks()
    ensures Next(Twice(Looked), Lock(0)) == Twice(Locked)
  {
    assert LockFree(Twice(Looked), P);
    assert Advance(Twice(Looked), 0, Locked) == Twice(Locked);
  }

  lemma FirstCounts()
    ensures Next(Twice(Locked), Count(0)) == Twice(Counted) && Next(Twice(Counted), Check(0)) == Twice(Checked)
  {
    NotYet();
    assert Advance(Twice(Locked), 0, Counted) == Twice(Counted);
    assert Advance(Twice(Counted), 0, Checked) == Twice(Checked);
  }

  lemma FirstInserts()
    ensures Next(Twice(Checked), Insert(0)) == Twice(Inserted)
  {
    NotYet();
    assert !InFlight(Twice(Checked), "c", KeyOf(CALL));
    assert Advance(Twice(Checked), 0, Inserted) == Twice(Inserted);
  }

  lemma FirstCommits()
    ensures Next(Twice(Inserted), Commit(0)) == State(FAMILY, map[1 := Spawner(AGAIN, ONE, Looked)])
  {
    assert PARENT["c" := NodeOf(CALL, ONE)] == FAMILY;
    assert Twice(Inserted).spawners - {0} == map[1 := Spawner(AGAIN, ONE, Looked)];
  }

  lemma FirstChecks()
    ensures Reachable(Twice(Checked))
  {
    BothLook();
    FirstLocks();
    Then(Twice(Looked), Lock(0), Twice(Locked));
    FirstCounts();
    Then(Twice(Locked), Count(0), Twice(Counted));
    Then(Twice(Counted), Check(0), Twice(Checked));
  }

  lemma FirstCreates()
    ensures Reachable(State(FAMILY, map[1 := Spawner(AGAIN, ONE, Looked)]))
  {
    FirstChecks();
    FirstInserts();
    Then(Twice(Checked), Insert(0), Twice(Inserted));
    FirstCommits();
    Then(Twice(Inserted), Commit(0), State(FAMILY, map[1 := Spawner(AGAIN, ONE, Looked)]));
  }

  lemma NowFull()
    ensures Full(FAMILY, P) && Spawned(FAMILY, KeyOf(AGAIN)) && Permitted(FAMILY, AGAIN)
  {
    assert "c" in FAMILY && HasKey(FAMILY["c"], KeyOf(AGAIN));
    assert Children(FAMILY, P) == {"c"};
  }

  /** With room for one child, the second delivery of a call is told there is no room while its child exists. */
  lemma RedeliveryDenied()
    ensures exists s, a :: Reachable(s) && Plain(s.tree) && Asked(s, a) == Some(AGAIN)
                           && Answered(s, a) == Some(Denied) && WholeAnswer(s.tree, AGAIN).Adopted?
  {
    FirstCreates();
    var s := State(FAMILY, map[1 := Spawner(AGAIN, ONE, Looked)]);
    var t := State(FAMILY, map[1 := Spawner(AGAIN, ONE, Locked)]);
    assert LockFree(s, P) && Advance(s, 1, Locked) == t;
    Then(s, Lock(1), t);
    NowFull();
    assert Answered(t, Count(1)) == Some(Denied);
  }
}

/**
  Spawning children.  A spawn looks for a child it has already created, then in
  one transaction locks the parent's row, counts its children, looks again and
  inserts; statements of different spawns interleave, deliveries repeat, and a
  spawn may be dropped at any point.
 */
module SpawnTree {
  import opened Options
  import opened Decimals
  import opened Policy

  type RunId = string

  // ---------------------------------------------------------------- the spawn key

  function SpawnKey(parent: RunId, step: nat, call: string): string {
    parent + ":" + Decimal(step) + ":" + call
  }

  lemma SplitAtColon(a: string, b: string, x: string, y: string)
    requires ':' !in a && ':' !in b && a + ":" + x == b + ":" + y
    ensures a == b && x == y
  {
    var s, t := a + ":" + x, b + ":" + y;
    assert s[|a|] == ':' && t[|b|] == ':';
    assert forall i :: 0 <= i < |a| ==> s[i] == a[i] && a[i] in a;
    assert forall i :: 0 <= i < |b| ==> t[i] == b[i] && b[i] in b;
    assert |a| == |b|;
    assert s[..|a|] == a && t[..|b|] == b;
    assert s[|a| + 1..] == x && t[|b| + 1..] == y;
  }

  /** For parents without a colon the key determines the parent, the step and the tool call. */
  lemma KeyDetermines(p: RunId, i: nat, c: string, q: RunId, j: nat, d: string)
    requires ':' !in p && ':' !in q && SpawnKey(p, i, c) == SpawnKey(q, j, d)
    ensures p == q && i == j && c == d
  {
    assert SpawnKey(p, i, c) == p + ":" + (Decimal(i) + ":" + c);
    assert SpawnKey(q, j, d) == q + ":" + (Decimal(j) + ":" + d);
    SplitAtColon(p, q, Decimal(i) + ":" + c, Decimal(j) + ":" + d);
    DecimalRoundTrips(i);
    DecimalRoundTrips(j);
    SplitAtColon(Decimal(i), Decimal(j), c, d);
  }

  /**
    With a colon in a parent id two different calls could share a key, so the
    condition on ids is needed.  Run ids are UUIDs, which have none.
   */
  lemma KeyCollides()
    ensures SpawnKey("a", 1, "2:x") == SpawnKey("a:1", 2, "x")
  {
    assert Decimal(1) == "1" && Decimal(2) == "2";
    assert "a" + ":" + "1" + ":" + "2:x" == "a:1:2:x" == "a:1" + ":" + "2" + ":" + "x";
  }

  // ---------------------------------------------------------------- runs and spawns

  datatype Node = Node(parent: Option<RunId>, step: nat, call: string, policy: RunPolicy)

  type Tree = map<RunId, Node>

  datatype Request = Request(parent: RunId, step: nat, call: string, child: RunId, spec: ChildSpec)

  function Children(tree: Tree, p: RunId): set<RunId> {
    set c | c in tree && tree[c].parent == Some(p)
  }

  predicate HasKey(node: Node, key: string) {
    node.parent.Some? && SpawnKey(node.parent.value, node.step, node.call) == key
  }

  function KeyOf(req: Request): string { SpawnKey(req.parent, req.step, req.call) }

  predicate Spawned(tree: Tree, key: string) {
    exists c :: c in tree && HasKey(tree[c], key)
  }

  function NodeOf(req: Request, policy: RunPolicy): Node {
    Node(Some(req.parent), req.step, req.call, policy)
  }

  /** The policy and spawn checks made before any row is touched. */
  ghost predicate Permitted(tree: Tree, req: Request) {
    && req.parent in tree
    && ChildPolicy(req.spec, tree[req.parent].policy).Some?
    && tree[req.parent].policy.maxChildren > 0
  }

  predicate Full(tree: Tree, p: RunId) {
    p in tree && |Children(tree, p)| >= tree[p].policy.maxChildren
  }

  ghost predicate Creates(tree: Tree, req: Request) {
    Permitted(tree, req) && !Spawned(tree, KeyOf(req)) && !Full(tree, req.parent) && req.child !in tree
  }

  /** A spawn as one indivisible step. */
  ghost function Spawn(tree: Tree, req: Request): Tree {
    if Creates(tree, req)
    then tree[req.child := NodeOf(req, ChildPolicy(req.spec, tree[req.parent].policy).value)]
    else tree
  }

  datatype Verdict = Created | Adopted(child: RunId) | Denied | Conflict

  /** The child a key belongs to. */
  ghost function ChildWith(tree: Tree, key: string): (c: RunId)
    requires Spawned(tree, key)
    ensures c in tree && HasKey(tree[c], key)
  {
    var c :| c in tree && HasKey(tree[c], key);
    c
  }

  /** The answer of a spawn that nothing interrupts. */
  ghost function WholeAnswer(tree: Tree, req: Request): Verdict {
    if !Permitted(tree, req) then Denied
    else if Spawned(tree, KeyOf(req)) then Adopted(ChildWith(tree, KeyOf(req)))
    else if Full(tree, req.parent) then Denied
    else if req.child in tree then Conflict
    else Created
  }

  predicate SameKind(a: Verdict, b: Verdict) {
    match a
    case Created => b.Created?
    case Adopted(_) => b.Adopted?
    case Denied => b.Denied?
    case Conflict => b.Conflict?
  }

  /** The spawn in its sequential form. */
  class Runs {
    var tree: Tree

    method SpawnChild(req: Request) returns (v: Verdict)
      requires req.parent in tree
      modifies this
      ensures tree == Spawn(old(tree), req)
      ensures v.Created? <==> Creates(old(tree), req)
      ensures v.Created? ==>
                tree == old(tree)[req.child := Node(Some(req.parent), req.step, req.call,
                                                    ChildPolicy(req.spec, old(tree)[req.parent].policy).value)]
      ensures !v.Created? ==> tree == old(tree)
      ensures v.Adopted? <==> Permitted(old(tree), req) && Spawned(old(tree), KeyOf(req))
      ensures SameKind(v, WholeAnswer(old(tree), req))
      ensures v.Adopted? ==> v.child in tree && HasKey(tree[v.child], KeyOf(req))
      ensures v.Denied? <==>
                var bound := old(tree)[req.parent].policy.maxChildren;
                || bound <= 0 || ChildPolicy(req.spec, old(tree)[req.parent].policy).None?
                || (!Spawned(old(tree), KeyOf(req)) && |Children(old(tree), req.parent)| >= bound)
      ensures v.Conflict? <==> Permitted(old(tree), req) && !Spawned(old(tree), KeyOf(req))
                               && !Full(old(tree), req.parent) && req.child in old(tree)
    {
      var parent := tree[req.parent];
      var policy := ResolvePolicy(req.spec, parent.policy);
      if policy.None? { return Denied; }
      if parent.policy.maxChildren <= 0 { return Denied; }
      var key := KeyOf(req);
      if c :| c in tree && HasKey(tree[c], key) {
        return Adopted(c);
      }
      if Full(tree, req.parent) { return Denied; }
      if req.child in tree { return Conflict; }
      tree := tree[req.child := NodeOf(req, policy.value)];
      v := Created;
    }
  }

  // ---------------------------------------------------------------- concurrent spawns

  datatype Phase = Looked | Locked | Counted | Checked | Inserted {
    predicate HoldsLock() { !Looked? }
    predicate Below() { Counted? || Checked? || Inserted? }
  }

  datatype Spawner = Spawner(req: Request, policy: RunPolicy, phase: Phase)

  datatype State = State(tree: Tree, spawners: map<nat, Spawner>)

  const INIT := State(map[], map[])

  datatype Action =
    | Root(run: RunId, policy: RunPolicy)
    | Look(spawner: nat, req: Request)
    | Lock(spawner: nat)
    | Count(spawner: nat)
    | Check(spawner: nat)
    | Insert(spawner: nat)
    | Commit(spawner: nat)
    | Drop(spawner: nat)

  function Advance(s: State, k: nat, phase: Phase): State
    requires k in s.spawners
  {
    s.(spawners := s.spawners[k := s.spawners[k].(phase := phase)])
  }

  function Leave(s: State, k: nat): State { s.(spawners := s.spawners - {k}) }

  predicate At(s: State, k: nat, phase: Phase) {
    k in s.spawners && s.spawners[k].phase == phase && s.spawners[k].req.parent in s.tree
  }

  predicate LockFree(s: State, p: RunId) {
    forall j :: j in s.spawners ==> !(s.spawners[j].phase.HoldsLock() && s.spawners[j].req.parent == p)
  }

  /** An uncommitted row with this id or key makes a conflicting insert wait. */
  predicate InFlight(s: State, child: RunId, key: string) {
    exists j :: j in s.spawners && s.spawners[j].phase.Inserted?
                && (s.spawners[j].req.child == child || KeyOf(s.spawners[j].req) == key)
  }

  predicate ChildInFlight(s: State, child: RunId) {
    exists j :: j in s.spawners && s.spawners[j].phase.Inserted? && s.spawners[j].req.child == child
  }

  ghost function Next(s: State, a: Action): State {
    match a
    case Root(r, policy) =>
      if r in s.tree || ChildInFlight(s, r) then s else s.(tree := s.tree[r := Node(None, 0, "", policy)])
    case Look(k, req) =>
      if k in s.spawners || !Permitted(s.tree, req) || Spawned(s.tree, KeyOf(req)) then s
      else s.(spawners := s.spawners[k := Spawner(req, ChildPolicy(req.spec, s.tree[req.parent].policy).value, Looked)])
    case Lock(k) =>
      if At(s, k, Looked) && LockFree(s, s.spawners[k].req.parent) then Advance(s, k, Locked) else s
    case Count(k) =>
      if !At(s, k, Locked) then s
      else if Full(s.tree, s.spawners[k].req.parent) then Leave(s, k)
      else Advance(s, k, Counted)
    case Check(k) =>
      if !At(s, k, Counted) then s
      else if Spawned(s.tree, KeyOf(s.spawners[k].req)) then Leave(s, k)
      else Advance(s, k, Checked)
    case Insert(k) =>
      if !At(s, k, Checked) || InFlight(s, s.spawners[k].req.child, KeyOf(s.spawners[k].req)) then s
      else if s.spawners[k].req.child in s.tree || Spawned(s.tree, KeyOf(s.spawners[k].req)) then Leave(s, k)
      else Advance(s, k, Inserted)
    case Commit(k) =>
      if !At(s, k, Inserted) then s
      else Leave(s, k).(tree := s.tree[s.spawners[k].req.child := NodeOf(s.spawners[k].req, s.spawners[k].policy)])
    case Drop(k) => Leave(s, k)
  }

  ghost function Exec(acts: seq<Action>): State {
    if acts == [] then INIT else Next(Exec(acts[..|acts| - 1]), acts[|acts| - 1])
  }

  // ---------------------------------------------------------------- invariant

  function Cap(tree: Tree, p: RunId): nat
    requires p in tree
  {
    if tree[p].policy.maxChildren > 0 then tree[p].policy.maxChildren else 0
  }

  ghost predicate NodeOk(tree: Tree, c: RunId)
    requires c in tree
  {
    && |Children(tree, c)| <= Cap(tree, c)
    && (tree[c].parent.Some? ==>
          && tree[c].parent.value in tree
          && Within(tree[c].policy, tree[tree[c].parent.value].policy))
  }

  predicate UniqueKeys(tree: Tree) {
    forall a, b ::
      (a in tree && b in tree && tree[a].parent.Some?
       && HasKey(tree[b], SpawnKey(tree[a].parent.value, tree[a].step, tree[a].call))) ==> a == b
  }

  ghost predicate SpawnerOk(s: State, k: nat)
    requires k in s.spawners
  {
    var sp := s.spawners[k];
    && Permitted(s.tree, sp.req) && Some(sp.policy) == ChildPolicy(sp.req.spec, s.tree[sp.req.parent].policy)
    && (sp.phase.Below() ==> |Children(s.tree, sp.req.parent)| < s.tree[sp.req.parent].policy.maxChildren)
    && (sp.phase.Inserted? ==> sp.req.child !in s.tree && !Spawned(s.tree, KeyOf(sp.req)))
  }

  /** One lock holder per parent, and no two uncommitted rows with the same id or key. */
  predicate Exclusive(a: Spawner, b: Spawner) {
    && !(a.phase.HoldsLock() && b.phase.HoldsLock() && a.req.parent == b.req.parent)
    && (a.phase.Inserted? && b.phase.Inserted? ==> a.req.child != b.req.child && KeyOf(a.req) != KeyOf(b.req))
  }

  ghost predicate TreeOk(tree: Tree) {
    && (forall c {:trigger NodeOk(tree, c)} :: c in tree ==> NodeOk(tree, c))
    && UniqueKeys(tree)
  }

  ghost predicate Inv(s: State) {
    && TreeOk(s.tree)
    && (forall k {:trigger SpawnerOk(s, k)} :: k in s.spawners ==> SpawnerOk(s, k))
    && (forall j, k {:trigger Exclusive(s.spawners[j], s.spawners[k])} ::
          j in s.spawners && k in s.spawners && j != k ==> Exclusive(s.spawners[j], s.spawners[k]))
  }

  /** At commit the statement-level spawn does what the indivisible one would do. */
  lemma CommitIsSpawn(s: State, k: nat)
    requires Inv(s) && At(s, k, Inserted)
    ensures Creates(s.tree, s.spawners[k].req)
    ensures Next(s, Commit(k)).tree == Spawn(s.tree, s.spawners[k].req)
    ensures var req := s.spawners[k].req;
            Next(s, Commit(k)).tree ==
              s.tree[req.child := Node(Some(req.parent), req.step, req.call,
                                       ChildPolicy(req.spec, s.tree[req.parent].policy).value)]
  {
    assert SpawnerOk(s, k);
  }

  lemma AddedChildren(tree: Tree, r: RunId, node: Node, p: RunId)
    requires r !in tree
    ensures Children(tree[r := node], p) ==
              if node.parent == Some(p) then Children(tree, p) + {r} else Children(tree, p)
  {
  }

  lemma NoDanglingParent(tree: Tree, p: RunId)
    requires TreeOk(tree) && p !in tree
    ensures Children(tree, p) == {}
  {
    forall d | d in tree && tree[d].parent.Some? ensures tree[d].parent.value in tree {
      assert NodeOk(tree, d);
    }
  }

  lemma SpawnKeepsTree(tree: Tree, req: Request)
    requires TreeOk(tree) && Creates(tree, req)
    ensures TreeOk(Spawn(tree, req))
  {
    var t := Spawn(tree, req);
    forall c | c in t ensures NodeOk(t, c) {
      AddedChildren(tree, req.child, t[req.child], c);
      if c != req.child {
        assert NodeOk(tree, c);
      } else {
        NoDanglingParent(tree, c);
      }
    }
  }

  lemma RootKeepsTree(tree: Tree, r: RunId, policy: RunPolicy)
    requires TreeOk(tree) && r !in tree
    ensures TreeOk(tree[r := Node(None, 0, "", policy)])
  {
    var t := tree[r := Node(None, 0, "", policy)];
    forall c | c in t ensures NodeOk(t, c) {
      AddedChildren(tree, r, t[r], c);
      if c != r {
        assert NodeOk(tree, c);
      } else {
        NoDanglingParent(tree, c);
      }
    }
  }

  /** A row added by somebody else leaves a spawner's facts alone. */
  lemma SpawnerStays(s: State, t: State, k: nat, r: RunId, node: Node)
    requires k in s.spawners && k in t.spawners && s.spawners[k] == t.spawners[k] && SpawnerOk(s, k)
    requires r !in s.tree && t.tree == s.tree[r := node]
    requires s.spawners[k].phase.HoldsLock() ==> node.parent != Some(s.spawners[k].req.parent)
    requires s.spawners[k].phase.Inserted? ==> r != s.spawners[k].req.child && !HasKey(node, KeyOf(s.spawners[k].req))
    ensures SpawnerOk(t, k)
  {
    AddedChildren(s.tree, r, node, s.spawners[k].req.parent);
  }

  lemma CommitInv(s: State, k: nat)
    requires Inv(s) && At(s, k, Inserted)
    ensures Inv(Next(s, Commit(k)))
  {
    var t := Next(s, Commit(k));
    var req := s.spawners[k].req;
    CommitIsSpawn(s, k);
    SpawnKeepsTree(s.tree, req);
    forall j | j in t.spawners ensures SpawnerOk(t, j) {
      assert SpawnerOk(s, j) && Exclusive(s.spawners[j], s.spawners[k]);
      SpawnerStays(s, t, j, req.child, t.tree[req.child]);
    }
    forall i, j | i in t.spawners && j in t.spawners && i != j ensures Exclusive(t.spawners[i], t.spawners[j]) {
      assert Exclusive(s.spawners[i], s.spawners[j]);
    }
  }

  lemma RootInv(s: State, r: RunId, policy: RunPolicy)
    requires Inv(s)
    ensures Inv(Next(s, Root(r, policy)))
  {
    var t := Next(s, Root(r, policy));
    if t != s {
      RootKeepsTree(s.tree, r, policy);
      forall j | j in t.spawners ensures SpawnerOk(t, j) {
        assert SpawnerOk(s, j);
        SpawnerStays(s, t, j, r, t.tree[r]);
      }
      forall i, j | i in t.spawners && j in t.spawners && i != j ensures Exclusive(t.spawners[i], t.spawners[j]) {
        assert Exclusive(s.spawners[i], s.spawners[j]);
      }
    }
  }

  lemma LeaveInv(s: State, k: nat)
    requires Inv(s)
    ensures Inv(Leave(s, k))
  {
    var t := Leave(s, k);
    forall j | j in t.spawners ensures SpawnerOk(t, j) {
      assert SpawnerOk(s, j);
    }
    forall i, j | i in t.spawners && j in t.spawners && i != j ensures Exclusive(t.spawners[i], t.spawners[j]) {
      assert Exclusive(s.spawners[i], s.spawners[j]);
    }
  }

  /** A spawner that enters or moves on, compatibly with all others. */
  lemma PutInv(s: State, k: nat, sp: Spawner)
    requires Inv(s) && SpawnerOk(s.(spawners := s.spawners[k := sp]), k)
    requires forall j :: j in s.spawners && j != k ==> Exclusive(sp, s.spawners[j]) && Exclusive(s.spawners[j], sp)
    ensures Inv(s.(spawners := s.spawners[k := sp]))
  {
    var t := s.(spawners := s.spawners[k := sp]);
    forall j | j in t.spawners ensures SpawnerOk(t, j) {
      if j != k { assert SpawnerOk(s, j); }
    }
    forall i, j | i in t.spawners && j in t.spawners && i != j ensures Exclusive(t.spawners[i], t.spawners[j]) {
      if i != k && j != k { assert Exclusive(s.spawners[i], s.spawners[j]); }
    }
  }

  lemma AdvanceInv(s: State, k: nat, phase: Phase)
    requires Inv(s) && k in s.spawners && !phase.Looked?
    requires phase.Locked? ==> LockFree(s, s.spawners[k].req.parent)
    requires !phase.Locked? ==> s.spawners[k].phase.HoldsLock()
    requires phase.Inserted? ==> !InFlight(s, s.spawners[k].req.child, KeyOf(s.spawners[k].req))
    requires SpawnerOk(Advance(s, k, phase), k)
    ensures Inv(Advance(s, k, phase))
  {
    var sp := s.spawners[k].(phase := phase);
    forall j | j in s.spawners && j != k ensures Exclusive(sp, s.spawners[j]) && Exclusive(s.spawners[j], sp) {
      assert Exclusive(s.spawners[k], s.spawners[j]) && Exclusive(s.spawners[j], s.spawners[k]);
    }
    PutInv(s, k, sp);
  }

  /** Steps that touch no row. */
  lemma QuietInv(s: State, a: Action)
    requires Inv(s) && !a.Root? && !a.Commit? && Next(s, a) != s
    ensures Inv(Next(s, a))
  {
    var k, t := a.spawner, Next(s, a);
    if a.Look? {
      PutInv(s, k, t.spawners[k]);
    } else if k in t.spawners {
      assert SpawnerOk(s, k);
      AdvanceInv(s, k, t.spawners[k].phase);
    } else {
      LeaveInv(s, k);
    }
  }

  lemma NextInv(s: State, a: Action)
    requires Inv(s)
    ensures Inv(Next(s, a))
  {
    if a.Root? {
      RootInv(s, a.run, a.policy);
    } else if a.Commit? {
      if At(s, a.spawner, Inserted) { CommitInv(s, a.spawner); }
    } else if Next(s, a) != s {
      QuietInv(s, a);
    }
  }

  lemma {:induction false} ExecInv(acts: seq<Action>)
    ensures Inv(Exec(acts))
    decreases |acts|
  {
    if acts != [] {
      ExecInv(acts[..|acts| - 1]);
      NextInv(Exec(acts[..|acts| - 1]), acts[|acts| - 1]);
    }
  }

  // ---------------------------------------------------------------- theorems

  /** At most one child per parent, step and tool call, however often and concurrently it is spawned. */
  lemma OneChildPerCall(acts: seq<Action>, a: RunId, b: RunId)
    requires var tree := Exec(acts).tree;
             a in tree && b in tree && tree[a].parent.Some?
             && tree[a].parent == tree[b].parent && tree[a].step == tree[b].step && tree[a].call == tree[b].call
    ensures a == b
  {
    ExecInv(acts);
    assert UniqueKeys(Exec(acts).tree);
  }

  /** A spawn that finds its key adopts the child of that very call, for parents without a colon. */
  lemma AdoptsItsOwn(tree: Tree, req: Request, c: RunId)
    requires c in tree && HasKey(tree[c], KeyOf(req)) && ':' !in req.parent && ':' !in tree[c].parent.value
    ensures tree[c].parent == Some(req.parent) && tree[c].step == req.step && tree[c].call == req.call
  {
    KeyDetermines(tree[c].parent.value, tree[c].step, tree[c].call, req.parent, req.step, req.call);
  }

  /** No run ever has more children than its policy allows. */
  lemma ChildrenBounded(acts: seq<Action>, p: RunId)
    requires p in Exec(acts).tree
    ensures |Children(Exec(acts).tree, p)| <= Cap(Exec(acts).tree, p)
  {
    ExecInv(acts);
    assert NodeOk(Exec(acts).tree, p);
  }

  /** The runs d generations below a root. */
  function Level(tree: Tree, root: RunId, d: nat): set<RunId> {
    if d == 0 then {root} else ChildrenOf(tree, Level(tree, root, d - 1))
  }

  function ChildrenOf(tree: Tree, ps: set<RunId>): set<RunId> {
    set c | c in tree && tree[c].parent.Some? && tree[c].parent.value in ps
  }

  function Pow(b: nat, e: nat): nat { if e == 0 then 1 else b * Pow(b, e - 1) }

  lemma {:induction false} UnionBounded(tree: Tree, ps: set<RunId>, m: nat)
    requires forall p :: p in ps ==> |Children(tree, p)| <= m
    ensures |ChildrenOf(tree, ps)| <= m * |ps|
    decreases |ps|
  {
    if ps == {} {
      assert ChildrenOf(tree, ps) == {};
    } else {
      var p :| p in ps;
      UnionBounded(tree, ps - {p}, m);
      CardUnion(Children(tree, p), ChildrenOf(tree, ps - {p}));
      assert ChildrenOf(tree, ps) == Children(tree, p) + ChildrenOf(tree, ps - {p});
      MulSuccessor(m, |ps - {p}|);
    }
  }

  lemma CardUnion(a: set<RunId>, b: set<RunId>)
    ensures |a + b| <= |a| + |b|
  {
  }

  lemma MulSuccessor(m: nat, n: nat)
    ensures m * (n + 1) == m * n + m
  {
  }

  /** No descendant is allowed anything its root is not. */
  lemma {:induction false} DescendantsWithin(acts: seq<Action>, root: RunId, d: nat, c: RunId)
    requires root in Exec(acts).tree && c in Level(Exec(acts).tree, root, d)
    ensures c in Exec(acts).tree && Within(Exec(acts).tree[c].policy, Exec(acts).tree[root].policy)
  {
    if d > 0 {
      var tree := Exec(acts).tree;
      DescendantsWithin(acts, root, d - 1, tree[c].parent.value);
      ExecInv(acts);
      assert NodeOk(tree, c);
    }
  }

  /** A root whose policy allows M children has at most M^d runs d generations below it. */
  lemma {:induction false} LevelBounded(acts: seq<Action>, root: RunId, d: nat)
    requires root in Exec(acts).tree
    ensures |Level(Exec(acts).tree, root, d)| <= Pow(Cap(Exec(acts).tree, root), d)
  {
    if d > 0 {
      var tree := Exec(acts).tree;
      var above, m := Level(tree, root, d - 1), Cap(tree, root);
      LevelBounded(acts, root, d - 1);
      forall p | p in above ensures |Children(tree, p)| <= m {
        DescendantsWithin(acts, root, d - 1, p);
        ChildrenBounded(acts, p);
      }
      UnionBounded(tree, above, m);
      MulMonotone(m, |above|, Pow(m, d - 1));
    }
  }

  lemma MulMonotone(m: nat, a: nat, b: nat)
    requires a <= b
    ensures m * a <= m * b
  {
  }
}

/**
  One fan-in wait at statement level.  The parent's transaction inserts the wait
  and its member rows and evaluates them; every member has one terminal
  transaction, which writes its state, lists the open waits it belongs to, locks
  the wait row and counts its members; sweepers claim the row for its deadline and
  resolve it in a second transaction, and a finishing parent abandons it, all
  under the same row lock.  Statements of different transactions interleave freely under
  Read Committed (PostgreSQL manual, section 13.2.1): a statement sees what was
  committed when it began and its own transaction's writes.

  A member row inserted for a child takes FOR KEY SHARE on the child's run row
  (section 13.3.2), which conflicts with FOR UPDATE and with nothing weaker.  A
  terminal transaction that starts with FOR UPDATE is called strong; one that
  starts with a plain UPDATE of the state is called weak.
 */
module FanIn {

  datatype ChildPhase =
    | Idle
    | RowLocked
    | Wrote
    | Listed(saw: bool)
    | Counting(next: nat, pending: bool)
    | Decided(closing: bool)
    | Committed

  datatype CreatorPhase =
    | Before
    | Inserting(next: nat)
    | Reading(next: nat, pending: bool)
    | Evaluated(closing: bool)
    | After

  /** The committed version of the wait row: claimed is timed out and not resumed, closed has its slot consumed. */
  datatype WaitRow = Absent | Open | Claimed | Closed

  /** Who holds the row lock on the committed wait row. */
  datatype Holder = Nobody | Member(child: nat) | Outsider

  /** resumed counts the transactions that resumed the parent and committed. */
  datatype State = State(row: WaitRow, holder: Holder, creator: CreatorPhase, children: seq<ChildPhase>, resumed: nat)

  datatype ChildStep = LockRow | Write | List | LockWait | Count | Decide | Commit | Rollback

  datatype CreatorStep = Insert | Read | Evaluate | Publish | Undo

  /** What a transaction that is no member's does under the lock: nothing, a sweep's two halves, or a parent's end. */
  datatype Work = Nothing | Claim | Resolve | Abandon

  datatype Action =
    | Child(child: nat, step: ChildStep)
    | Creator(creatorStep: CreatorStep)
    | OutsiderLock
    | OutsiderEnd(work: Work)

  /** The wait is not created yet and no member has begun to finish. */
  function Fresh(n: nat): State {
    State(Absent, Nobody, Before, seq(n, i => Idle), 0)
  }

  /** The wait is committed and no member has begun to finish. */
  function Installed(n: nat): State {
    State(Open, Nobody, After, seq(n, i => Idle), 0)
  }

  predicate HoldsRow(p: ChildPhase) { p.RowLocked? || p.Wrote? || p.Listed? || p.Counting? || p.Decided? }

  /** How many member rows the parent's uncommitted transaction has inserted. */
  function Inserted(s: State): nat {
    match s.creator
    case Inserting(k) => k
    case Reading(_, _) => |s.children|
    case Evaluated(_) => |s.children|
    case _ => 0
  }

  function SetPhase(s: State, c: nat, p: ChildPhase): State
    requires c < |s.children|
  {
    s.(children := s.children[c := p])
  }

  predicate Unresumed(row: WaitRow) { row.Open? || row.Claimed? }

  /** The slot is consumed and the parent's next step enqueued. */
  function Resume(s: State): State { s.(row := Closed, resumed := s.resumed + 1) }

  function ChildNext(strong: seq<bool>, s: State, c: nat, step: ChildStep): State {
    if c >= |s.children| || c >= |strong| then s else
    var p := s.children[c];
    match step
    case LockRow =>
      if p.Idle? && strong[c] && c >= Inserted(s) then SetPhase(s, c, RowLocked) else s
    case Write =>
      if p.RowLocked? || (p.Idle? && !strong[c]) then SetPhase(s, c, Wrote) else s
    case List =>
      if p.Wrote? then SetPhase(s, c, Listed(s.row.Open?)) else s
    case LockWait =>
      if p == Listed(true) && s.holder.Nobody? then SetPhase(s, c, Counting(0, false)).(holder := Member(c)) else s
    case Count =>
      if p.Counting? && p.next < |s.children|
      then SetPhase(s, c, Counting(p.next + 1, p.pending || !(p.next == c || s.children[p.next].Committed?)))
      else s
    case Decide =>
      if p.Counting? && p.next == |s.children| then SetPhase(s, c, Decided(!p.pending && Unresumed(s.row))) else s
    case Commit =>
      if p.Decided? then SetPhase(if p.closing then Resume(s) else s, c, Committed).(holder := Nobody)
      else if p == Listed(false) then SetPhase(s, c, Committed)
      else s
    case Rollback =>
      if p.Committed? then s
      else SetPhase(s, c, Idle).(holder := if s.holder == Member(c) then Nobody else s.holder)
  }

  function CreatorNext(strong: seq<bool>, s: State, step: CreatorStep): State {
    var n := |s.children|;
    match step
    case Insert =>
      (match s.creator
       case Before => s.(creator := Inserting(0))
       case Inserting(k) =>
         if k < n then
           if k < |strong| && strong[k] && HoldsRow(s.children[k]) then s else s.(creator := Inserting(k + 1))
         else s.(creator := Reading(0, false))
       case _ => s)
    case Read =>
      if s.creator.Reading? && s.creator.next < n
      then s.(creator := Reading(s.creator.next + 1, s.creator.pending || !s.children[s.creator.next].Committed?))
      else s
    case Evaluate =>
      if s.creator.Reading? && s.creator.next == n then s.(creator := Evaluated(!s.creator.pending)) else s
    case Publish =>
      if s.creator.Evaluated? then (if s.creator.closing then Resume(s) else s.(row := Open)).(creator := After) else s
    case Undo =>
      if s.creator.After? then s else s.(creator := Before)
  }

  function Next(strong: seq<bool>, s: State, a: Action): State {
    match a
    case Child(c, step) => ChildNext(strong, s, c, step)
    case Creator(step) => CreatorNext(strong, s, step)
    case OutsiderLock => if s.holder.Nobody? && !s.row.Absent? then s.(holder := Outsider) else s
    case OutsiderEnd(work) =>
      if s.holder.Outsider? then OutsiderWork(s, work).(holder := Nobody) else s
  }

  function OutsiderWork(s: State, work: Work): State {
    match work
    case Nothing => s
    case Claim => if s.row.Open? then s.(row := Claimed) else s
    case Resolve => if s.row.Claimed? then Resume(s) else s
    case Abandon => if Unresumed(s.row) then s.(row := Closed) else s
  }

  function Exec(strong: seq<bool>, start: State, acts: seq<Action>): State {
    if acts == [] then start
    else Next(strong, Exec(strong, start, acts[..|acts| - 1]), acts[|acts| - 1])
  }

  predicate AllCommitted(s: State) {
    forall c :: 0 <= c < |s.children| ==> s.children[c].Committed?
  }

  /** The wait is open although every member has committed its terminal state: only its deadline will close it. */
  predicate Lost(s: State) {
    s.row.Open? && AllCommitted(s)
  }

  /** A run from before the wait's creation that loses the wake-up. */
  predicate LosesBy(strong: seq<bool>, acts: seq<Action>) {
    Lost(Exec(strong, Fresh(|strong|), acts))
  }

  predicate AllStrong(strong: seq<bool>) {
    forall c :: 0 <= c < |strong| ==> strong[c]
  }

  // ---------------------------------------------------------------- invariant

  /** A member that has yet to take the wait row's lock and will. */
  predicate Waiting(p: ChildPhase) { p.Idle? || p.RowLocked? || p.Wrote? || p == Listed(true) }

  predicate SomeWaiting(s: State) {
    exists d :: 0 <= d < |s.children| && Waiting(s.children[d])
  }

  /** The member holding the lock has found nobody pending so far. */
  predicate AboutToClose(s: State) {
    && s.holder.Member? && s.holder.child < |s.children|
    && var p := s.children[s.holder.child];
       (p.Counting? && !p.pending) || (p.Decided? && p.closing)
  }

  predicate Locks(s: State) {
    forall c :: 0 <= c < |s.children| ==>
      (s.children[c].Counting? || s.children[c].Decided? <==> s.holder == Member(c))
  }

  /** Members whose rows the parent's transaction has share-locked cannot begin. */
  predicate Frozen(strong: seq<bool>, s: State) {
    && Inserted(s) <= |s.children|
    && forall c :: 0 <= c < Inserted(s) && c < |strong| && strong[c] ==> s.children[c].Idle? || s.children[c].Committed?
  }

  predicate CreatorSawPending(s: State) {
    (s.creator.Reading? && s.creator.pending) || (s.creator.Evaluated? && !s.creator.closing)
  }

  /** While the row is open, members see it, and one of them is still to come or about to close. */
  predicate Watched(s: State) {
    && (forall c :: 0 <= c < |s.children| ==> s.children[c] != Listed(false))
    && (SomeWaiting(s) || AboutToClose(s))
  }

  predicate NobodySawIt(s: State) {
    forall c :: 0 <= c < |s.children| ==> s.children[c] != Listed(true)
  }

  predicate Inv(strong: seq<bool>, s: State) {
    && |s.children| == |strong| && Locks(s)
    && (s.row.Absent? <==> !s.creator.After?)
    && (s.row.Absent? ==> s.holder.Nobody? && AllStrong(strong) && NobodySawIt(s))
    && Frozen(strong, s)
    && (s.creator.Reading? ==> s.creator.next <= |strong|)
    && (CreatorSawPending(s) ==> SomeWaiting(s))
    && (s.row.Open? ==> Watched(s))
  }

  /** Somebody is still waiting after a member's step if it was another member, or if it is this one now. */
  lemma WaitingStays(strong: seq<bool>, s: State, c: nat, step: ChildStep)
    requires c < |s.children|
    ensures var t := ChildNext(strong, s, c, step);
            && |t.children| == |s.children|
            && (forall d :: 0 <= d < |s.children| && d != c ==> t.children[d] == s.children[d])
            && (SomeWaiting(s) && !Waiting(s.children[c]) ==> SomeWaiting(t))
            && (Waiting(t.children[c]) ==> SomeWaiting(t))
  {
    var t := ChildNext(strong, s, c, step);
    if SomeWaiting(s) && !Waiting(s.children[c]) {
      var d :| 0 <= d < |s.children| && Waiting(s.children[d]);
      assert Waiting(t.children[d]);
    }
  }

  lemma BeginInv(strong: seq<bool>, s: State, c: nat, step: ChildStep)
    requires Inv(strong, s) && c < |s.children| && (step.LockRow? || step.Write? || step.List? || step.Rollback?)
    ensures Inv(strong, ChildNext(strong, s, c, step))
  {
    WaitingStays(strong, s, c, step);
  }

  lemma EndInv(strong: seq<bool>, s: State, c: nat, step: ChildStep)
    requires Inv(strong, s) && c < |s.children| && (step.LockWait? || step.Count? || step.Decide? || step.Commit?)
    ensures Inv(strong, ChildNext(strong, s, c, step))
  {
    var t := ChildNext(strong, s, c, step);
    WaitingStays(strong, s, c, step);
    if step.Count? && s.children[c].Counting? && s.children[c].next < |s.children| {
      var k := s.children[c].next;
      if s.row.Open? && k != c && !s.children[k].Committed? { assert Waiting(t.children[k]); }
    }
  }

  lemma ChildInv(strong: seq<bool>, s: State, c: nat, step: ChildStep)
    requires Inv(strong, s)
    ensures Inv(strong, ChildNext(strong, s, c, step))
  {
    if c < |s.children| {
      if step.LockRow? || step.Write? || step.List? || step.Rollback? {
        BeginInv(strong, s, c, step);
      } else {
        EndInv(strong, s, c, step);
      }
    }
  }

  lemma CreatorInv(strong: seq<bool>, s: State, step: CreatorStep)
    requires Inv(strong, s)
    ensures Inv(strong, CreatorNext(strong, s, step))
  {
    var t := CreatorNext(strong, s, step);
    if SomeWaiting(s) {
      var d :| 0 <= d < |s.children| && Waiting(s.children[d]);
      assert Waiting(t.children[d]);
    }
    if step.Read? && s.creator.Reading? && s.creator.next < |s.children| && !s.children[s.creator.next].Committed? {
      assert Waiting(t.children[s.creator.next]);
    }
  }

  lemma NextInv(strong: seq<bool>, s: State, a: Action)
    requires Inv(strong, s)
    ensures Inv(strong, Next(strong, s, a))
  {
    match a
    case Child(c, step) => ChildInv(strong, s, c, step);
    case Creator(step) => CreatorInv(strong, s, step);
    case _ =>
      if SomeWaiting(s) {
        var d :| 0 <= d < |s.children| && Waiting(s.children[d]);
        assert Waiting(Next(strong, s, a).children[d]);
      }
  }

  lemma {:induction false} ExecInv(strong: seq<bool>, start: State, acts: seq<Action>)
    requires Inv(strong, start)
    ensures Inv(strong, Exec(strong, start, acts))
    decreases |acts|
  {
    if acts != [] {
      ExecInv(strong, start, acts[..|acts| - 1]);
      NextInv(strong, Exec(strong, start, acts[..|acts| - 1]), acts[|acts| - 1]);
    }
  }

  lemma OpenIsNotLost(strong: seq<bool>, s: State)
    requires Inv(strong, s)
    ensures !Lost(s)
  {
    if s.row.Open? && SomeWaiting(s) {
      var d :| 0 <= d < |s.children| && Waiting(s.children[d]);
      assert !s.children[d].Committed?;
    }
  }

  // ---------------------------------------------------------------- theorems

  /**
    A wait that was committed before its members began to finish is closed once
    all of them have committed, however their transactions begin: the members
    cannot all have seen each other as pending.
   */
  lemma CommittedWaitCloses(strong: seq<bool>, acts: seq<Action>)
    requires strong != []
    ensures !Lost(Exec(strong, Installed(|strong|), acts))
  {
    var start := Installed(|strong|);
    assert Waiting(start.children[0]);
    ExecInv(strong, start, acts);
    OpenIsNotLost(strong, Exec(strong, start, acts));
  }

  /** With the wait's own creation in the race, the same holds if every terminal transaction is strong. */
  lemma StrongMembersClose(strong: seq<bool>, acts: seq<Action>)
    requires AllStrong(strong) && strong != []
    ensures !LosesBy(strong, acts)
  {
    ExecInv(strong, Fresh(|strong|), acts);
    OpenIsNotLost(strong, Exec(strong, Fresh(|strong|), acts));
  }

  // ---------------------------------------------------------------- a weak member loses the wake-up

  ghost predicate Reaches(strong: seq<bool>, s: State, t: State) {
    exists acts :: Exec(strong, s, acts) == t
  }

  lemma Then(strong: seq<bool>, s: State, t: State, a: Action)
    requires Reaches(strong, s, t)
    ensures Reaches(strong, s, Next(strong, t, a))
  {
    var acts :| Exec(strong, s, acts) == t;
    assert (acts + [a])[..|acts|] == acts;
    assert Exec(strong, s, acts + [a]) == Next(strong, t, a);
  }

  /** Member d has listed without seeing the wait; the first k other members have finished. */
  function Overlooked(n: nat, d: nat, k: nat): State {
    State(Absent, Nobody, Before, seq(n, i => if i == d then Listed(false) else if i < k then Committed else Idle), 0)
  }

  lemma WeakMemberLists(strong: seq<bool>, d: nat)
    requires d < |strong| && !strong[d]
    ensures Reaches(strong, Fresh(|strong|), Overlooked(|strong|, d, 0))
  {
    var s := Fresh(|strong|);
    assert Exec(strong, s, []) == s;
    Then(strong, s, s, Child(d, Write));
    var t := Next(strong, s, Child(d, Write));
    Then(strong, s, t, Child(d, List));
    assert Next(strong, t, Child(d, List)).children == Overlooked(|strong|, d, 0).children;
  }

  lemma MemberFinishes(strong: seq<bool>, start: State, d: nat, k: nat)
    requires d < |strong| && k < |strong| && Reaches(strong, start, Overlooked(|strong|, d, k))
    ensures Reaches(strong, start, Overlooked(|strong|, d, k + 1))
  {
    var s := Overlooked(|strong|, d, k);
    if k == d {
      assert s.children == Overlooked(|strong|, d, k + 1).children;
    } else {
      Then(strong, start, s, Child(k, LockRow));
      var s1 := Next(strong, s, Child(k, LockRow));
      Then(strong, start, s1, Child(k, Write));
      var s2 := Next(strong, s1, Child(k, Write));
      Then(strong, start, s2, Child(k, List));
      var s3 := Next(strong, s2, Child(k, List));
      Then(strong, start, s3, Child(k, Commit));
      assert Next(strong, s3, Child(k, Commit)).children == Overlooked(|strong|, d, k + 1).children;
    }
  }

  lemma {:induction false} OthersFinish(strong: seq<bool>, d: nat, k: nat)
    requires d < |strong| && !strong[d] && k <= |strong|
    ensures Reaches(strong, Fresh(|strong|), Overlooked(|strong|, d, k))
  {
    if k == 0 {
      WeakMemberLists(strong, d);
    } else {
      OthersFinish(strong, d, k - 1);
      MemberFinishes(strong, Fresh(|strong|), d, k - 1);
    }
  }

  lemma {:induction false} WaitInserts(strong: seq<bool>, d: nat, k: nat)
    requires d < |strong| && !strong[d] && k <= |strong|
    ensures Reaches(strong, Fresh(|strong|), Overlooked(|strong|, d, |strong|).(creator := Inserting(k)))
  {
    var s := Overlooked(|strong|, d, |strong|);
    if k == 0 {
      OthersFinish(strong, d, |strong|);
      Then(strong, Fresh(|strong|), s, Creator(Insert));
    } else {
      WaitInserts(strong, d, k - 1);
      Then(strong, Fresh(|strong|), s.(creator := Inserting(k - 1)), Creator(Insert));
    }
  }

  lemma {:induction false} WaitReads(strong: seq<bool>, d: nat, k: nat)
    requires d < |strong| && !strong[d] && k <= |strong|
    ensures Reaches(strong, Fresh(|strong|), Overlooked(|strong|, d, |strong|).(creator := Reading(k, d < k)))
  {
    var s := Overlooked(|strong|, d, |strong|);
    if k == 0 {
      WaitInserts(strong, d, |strong|);
      Then(strong, Fresh(|strong|), s.(creator := Inserting(|strong|)), Creator(Insert));
    } else {
      WaitReads(strong, d, k - 1);
      Then(strong, Fresh(|strong|), s.(creator := Reading(k - 1, d < k - 1)), Creator(Read));
    }
  }

  /** One weak member is enough: it lists before the wait is visible and commits after the parent has read it. */
  lemma WeakMemberLoses(strong: seq<bool>, d: nat) returns (acts: seq<Action>)
    requires d < |strong| && !strong[d]
    ensures LosesBy(strong, acts)
  {
    var start := Fresh(|strong|);
    WaitReads(strong, d, |strong|);
    var s := Overlooked(|strong|, d, |strong|).(creator := Reading(|strong|, true));
    Then(strong, start, s, Creator(Evaluate));
    var s1 := Next(strong, s, Creator(Evaluate));
    Then(strong, start, s1, Creator(Publish));
    var s2 := Next(strong, s1, Creator(Publish));
    Then(strong, start, s2, Child(d, Commit));
    acts :| Exec(strong, start, acts) == Next(strong, s2, Child(d, Commit));
  }

  /** Exactly when the fan-in is safe from its creation on: no member finishes through a plain UPDATE. */
  lemma SafeExactlyWhenStrong(strong: seq<bool>)
    requires strong != []
    ensures (forall acts :: !LosesBy(strong, acts)) <==> AllStrong(strong)
  {
    if AllStrong(strong) {
      forall acts ensures !LosesBy(strong, acts) {
        StrongMembersClose(strong, acts);
      }
    } else {
      var d :| 0 <= d < |strong| && !strong[d];
      var acts := WeakMemberLoses(strong, d);
    }
  }

  // ---------------------------------------------------------------- at most one resumption

  /** The slot is consumed once, and whoever is about to consume it holds the lock on a row that still has it. */
  predicate Once(s: State) {
    && (s.row.Absent? <==> !s.creator.After?) && (s.row.Absent? ==> s.holder.Nobody? && NobodySawIt(s))
    && Locks(s)
    && s.resumed <= (if s.row.Closed? then 1 else 0)
    && (forall c :: 0 <= c < |s.children| && s.children[c] == Decided(true) ==> Unresumed(s.row))
  }

  lemma ChildOnce(strong: seq<bool>, s: State, c: nat, step: ChildStep)
    requires Once(s)
    ensures Once(ChildNext(strong, s, c, step))
  {
    if c < |s.children| {
      var t := ChildNext(strong, s, c, step);
      WaitingStays(strong, s, c, step);
      forall d | 0 <= d < |t.children| && t.children[d] == Decided(true) ensures Unresumed(t.row) {
        if d != c { assert s.children[d] == Decided(true); }
      }
    }
  }

  lemma NextOnce(strong: seq<bool>, s: State, a: Action)
    requires Once(s)
    ensures Once(Next(strong, s, a))
  {
    match a
    case Child(c, step) => ChildOnce(strong, s, c, step);
    case _ =>
  }

  lemma {:induction false} ExecOnce(strong: seq<bool>, start: State, acts: seq<Action>)
    requires Once(start)
    ensures Once(Exec(strong, start, acts))
    decreases |acts|
  {
    if acts != [] {
      ExecOnce(strong, start, acts[..|acts| - 1]);
      NextOnce(strong, Exec(strong, start, acts[..|acts| - 1]), acts[|acts| - 1]);
    }
  }

  /** Members, the sweep's two halves, the creation and the parent's end resume the parent at most once between them. */
  lemma ResumedAtMostOnce(strong: seq<bool>, start: State, acts: seq<Action>)
    requires start == Fresh(|strong|) || start == Installed(|strong|)
    ensures Exec(strong, start, acts).resumed <= 1
  {
    ExecOnce(strong, start, acts);
  }

  // ---------------------------------------------------------------- not before the last member

  /** All members before k, c aside, have committed. */
  predicate CommittedBelow(s: State, k: int, c: int) {
    forall d :: 0 <= d < k && d < |s.children| && d != c ==> s.children[d].Committed?
  }

  /** Whoever has found nobody pending is right about the members it has looked at. */
  predicate Right(s: State) {
    && (forall c :: 0 <= c < |s.children| ==>
          && (s.children[c].Counting? && !s.children[c].pending ==> CommittedBelow(s, s.children[c].next, c))
          && (s.children[c] == Decided(true) ==> CommittedBelow(s, |s.children|, c)))
    && (s.creator.Reading? && !s.creator.pending ==> CommittedBelow(s, s.creator.next, -1))
    && (s.creator == Evaluated(true) ==> CommittedBelow(s, |s.children|, -1))
  }

  lemma CommittedStays(strong: seq<bool>, s: State, c: nat, step: ChildStep, d: int)
    requires 0 <= d < |s.children| && s.children[d].Committed?
    ensures var t := ChildNext(strong, s, c, step); |t.children| == |s.children| && t.children[d].Committed?
  {
  }

  lemma ChildRight(strong: seq<bool>, s: State, c: nat, step: ChildStep)
    requires Right(s)
    ensures Right(ChildNext(strong, s, c, step))
  {
    var t := ChildNext(strong, s, c, step);
    forall d | 0 <= d < |s.children| && s.children[d].Committed? ensures t.children[d].Committed? {
      CommittedStays(strong, s, c, step, d);
    }
    assert |t.children| == |s.children| && t.creator == s.creator;
    forall d | 0 <= d < |s.children|
      ensures t.children[d].Counting? && !t.children[d].pending ==> CommittedBelow(t, t.children[d].next, d)
      ensures t.children[d] == Decided(true) ==> CommittedBelow(t, |t.children|, d)
    {
      if d != c { assert t.children[d] == s.children[d]; }
    }
  }

  lemma NextRight(strong: seq<bool>, s: State, a: Action)
    requires Right(s)
    ensures Right(Next(strong, s, a))
  {
    match a
    case Child(c, step) => ChildRight(strong, s, c, step);
    case _ =>
      var t := Next(strong, s, a);
      assert t.children == s.children;
      assert forall k, c :: CommittedBelow(s, k, c) ==> CommittedBelow(t, k, c);
  }

  lemma {:induction false} ExecRight(strong: seq<bool>, start: State, acts: seq<Action>)
    requires Right(start)
    ensures Right(Exec(strong, start, acts))
    decreases |acts|
  {
    if acts != [] {
      ExecRight(strong, start, acts[..|acts| - 1]);
      NextRight(strong, Exec(strong, start, acts[..|acts| - 1]), acts[|acts| - 1]);
    }
  }

  /** Nobody but a sweep resumes the parent before every member has ended. */
  lemma ResumedByTheLast(strong: seq<bool>, start: State, acts: seq<Action>, a: Action)
    requires start == Fresh(|strong|) || start == Installed(|strong|)
    requires var s := Exec(strong, start, acts); Next(strong, s, a).resumed > s.resumed
    ensures a == OutsiderEnd(Resolve) || AllCommitted(Next(strong, Exec(strong, start, acts), a))
  {
    ExecRight(strong, start, acts);
    var s := Exec(strong, start, acts);
    if a.Child? && a.child < |s.children| {
      forall d | 0 <= d < |s.children| && s.children[d].Committed?
        ensures Next(strong, s, a).children[d].Committed?
      {
        CommittedStays(strong, s, a.child, a.step, d);
      }
    }
  }

  // ---------------------------------------------------------------- a claimed wait whose sweeper is gone

  /** A run of the members alone. */
  predicate Alone(acts: seq<Action>) {
    forall i :: 0 <= i < |acts| ==> acts[i].Child?
  }

  ghost predicate ReachesAlone(strong: seq<bool>, s: State, t: State) {
    exists acts :: Alone(acts) && Exec(strong, s, acts) == t
  }

  lemma ThenAlone(strong: seq<bool>, s: State, t: State, c: nat, step: ChildStep)
    requires ReachesAlone(strong, s, t)
    ensures ReachesAlone(strong, s, ChildNext(strong, t, c, step))
  {
    var acts :| Alone(acts) && Exec(strong, s, acts) == t;
    var more := acts + [Child(c, step)];
    assert more[..|acts|] == acts;
    assert Alone(more) && Exec(strong, s, more) == ChildNext(strong, t, c, step);
  }

  /** The row is claimed and unlocked, member c has seen it open, and members below k other than c have finished. */
  predicate SeenBy(strong: seq<bool>, s: State, c: nat, k: nat) {
    && |s.children| == |strong| && c < |strong| && s.children[c] == Listed(true)
    && s.row.Claimed? && s.holder.Nobody? && s.creator.After? && s.resumed == 0
    && forall d :: 0 <= d < k && d < |strong| && d != c ==> s.children[d].Committed?
  }

  lemma OtherWrites(strong: seq<bool>, start: State, s: State, c: nat, d: nat) returns (t: State)
    requires SeenBy(strong, s, c, d) && d < |strong| && d != c && ReachesAlone(strong, start, s)
    ensures SeenBy(strong, t, c, d) && ReachesAlone(strong, start, t)
    ensures t.children[d].Wrote? || t.children[d].Committed?
  {
    ThenAlone(strong, start, s, d, Rollback);
    t := ChildNext(strong, s, d, Rollback);
    ThenAlone(strong, start, t, d, LockRow);
    t := ChildNext(strong, t, d, LockRow);
    ThenAlone(strong, start, t, d, Write);
    t := ChildNext(strong, t, d, Write);
  }

  /** Another member begins again if it has to, sees no open wait and finishes. */
  lemma OtherFinishes(strong: seq<bool>, start: State, s: State, c: nat, d: nat) returns (t: State)
    requires SeenBy(strong, s, c, d) && d < |strong| && ReachesAlone(strong, start, s)
    ensures SeenBy(strong, t, c, d + 1) && ReachesAlone(strong, start, t)
  {
    t := s;
    if d != c {
      t := OtherWrites(strong, start, s, c, d);
      ThenAlone(strong, start, t, d, List);
      t := ChildNext(strong, t, d, List);
      ThenAlone(strong, start, t, d, Commit);
      t := ChildNext(strong, t, d, Commit);
    }
  }

  lemma {:induction false} AllOthersFinish(strong: seq<bool>, s: State, c: nat, k: nat) returns (t: State)
    requires SeenBy(strong, s, c, 0) && k <= |strong|
    ensures SeenBy(strong, t, c, k) && ReachesAlone(strong, s, t)
    decreases k
  {
    if k == 0 {
      t := s;
      assert Alone([]) && Exec(strong, s, []) == s;
    } else {
      var u := AllOthersFinish(strong, s, c, k - 1);
      t := OtherFinishes(strong, s, u, c, k - 1);
    }
  }

  lemma {:induction false} LastCounts(strong: seq<bool>, start: State, s: State, c: nat, k: nat)
    requires SeenBy(strong, s, c, |strong|) && k <= |strong| && ReachesAlone(strong, start, s)
    ensures ReachesAlone(strong, start, SetPhase(s, c, Counting(k, false)).(holder := Member(c)))
  {
    if k == 0 {
      ThenAlone(strong, start, s, c, LockWait);
    } else {
      LastCounts(strong, start, s, c, k - 1);
      var t := SetPhase(s, c, Counting(k - 1, false)).(holder := Member(c));
      ThenAlone(strong, start, t, c, Count);
      assert ChildNext(strong, t, c, Count).children == SetPhase(s, c, Counting(k, false)).children;
    }
  }

  /** The members can still resume the parent: some run of theirs does. */
  ghost predicate Resumable(strong: seq<bool>, s: State) {
    exists acts :: Alone(acts) && Exec(strong, s, acts).resumed > s.resumed
  }

  lemma SeenIsResumable(strong: seq<bool>, s: State, c: nat)
    requires SeenBy(strong, s, c, 0)
    ensures Resumable(strong, s)
  {
    var t := AllOthersFinish(strong, s, c, |strong|);
    LastCounts(strong, s, t, c, |strong|);
    var u := SetPhase(t, c, Counting(|strong|, false)).(holder := Member(c));
    ThenAlone(strong, s, u, c, Decide);
    var v := ChildNext(strong, u, c, Decide);
    ThenAlone(strong, s, v, c, Commit);
    var acts :| Alone(acts) && Exec(strong, s, acts) == ChildNext(strong, v, c, Commit);
    assert Exec(strong, s, acts).resumed == 1;
  }

  /** Nobody is on the way to the claimed row any more. */
  predicate Unseen(s: State) {
    && s.row.Claimed?
    && forall c :: 0 <= c < |s.children| ==>
         s.children[c] != Listed(true) && !s.children[c].Counting? && !s.children[c].Decided?
  }

  lemma {:induction false} UnseenStays(strong: seq<bool>, s: State, acts: seq<Action>)
    requires Unseen(s) && Alone(acts)
    ensures Unseen(Exec(strong, s, acts)) && Exec(strong, s, acts).resumed == s.resumed
    decreases |acts|
  {
    if acts != [] {
      var before := acts[..|acts| - 1];
      UnseenStays(strong, s, before);
      var t := Exec(strong, s, before);
      var a := acts[|acts| - 1];
      forall c | 0 <= c < |t.children|
        ensures var p := ChildNext(strong, t, a.child, a.step).children[c];
                p != Listed(true) && !p.Counting? && !p.Decided?
      {
      }
    }
  }

  /**
    Exactly when a wait that was claimed for its deadline can be resumed without
    its sweeper: some member's transaction had listed it while it was open and
    has yet to lock it.
   */
  lemma ClaimedResumableExactlyWhen(strong: seq<bool>, start: State, acts: seq<Action>)
    requires start == Fresh(|strong|) || start == Installed(|strong|)
    requires var s := Exec(strong, start, acts); s.row.Claimed? && s.holder.Nobody?
    ensures var s := Exec(strong, start, acts);
            Resumable(strong, s) <==> exists c :: 0 <= c < |s.children| && s.children[c] == Listed(true)
  {
    var s := Exec(strong, start, acts);
    ExecOnce(strong, start, acts);
    MembersStay(strong, start, acts);
    if c :| 0 <= c < |strong| && s.children[c] == Listed(true) {
      SeenIsResumable(strong, s, c);
    } else {
      assert Unseen(s);
      forall more | Alone(more) ensures Exec(strong, s, more).resumed == s.resumed {
        UnseenStays(strong, s, more);
      }
    }
  }

  lemma MemberLists(strong: seq<bool>)
    requires strong != []
    ensures Reaches(strong, Installed(|strong|), SetPhase(Installed(|strong|), 0, Listed(true)))
  {
    var start := Installed(|strong|);
    assert Exec(strong, start, []) == start;
    Then(strong, start, start, Child(0, LockRow));
    var s := Next(strong, start, Child(0, LockRow));
    Then(strong, start, s, Child(0, Write));
    var t := Next(strong, s, Child(0, Write));
    Then(strong, start, t, Child(0, List));
    assert Next(strong, t, Child(0, List)).children == SetPhase(start, 0, Listed(true)).children;
  }

  /** Such a state: a member lists the open wait, and a sweep claims the wait before the member locks it. */
  lemma LateMember(strong: seq<bool>)
    requires strong != []
    ensures exists s :: Reaches(strong, Installed(|strong|), s) && s.row.Claimed? && s.holder.Nobody?
                        && Resumable(strong, s)
  {
    var start := Installed(|strong|);
    var s := SetPhase(start, 0, Listed(true));
    MemberLists(strong);
    Then(strong, start, s, OutsiderLock);
    Then(strong, start, s.(holder := Outsider), OutsiderEnd(Claim));
    SeenIsResumable(strong, s.(row := Claimed), 0);
  }

  lemma {:induction false} MembersStay(strong: seq<bool>, start: State, acts: seq<Action>)
    ensures |Exec(strong, start, acts).children| == |start.children|
    decreases |acts|
  {
    if acts != [] { MembersStay(strong, start, acts[..|acts| - 1]); }
  }
}

/**
  The SQL the admin query compiler emits, as a tree: conditions on columns with
  numbered placeholders, joined as an OR of ANDs, in three-valued logic.  Values
  compare through an arbitrary total order and match patterns through Like.
 */
module Sql {
  import Like

  datatype Value = Null | Text(text: string) | Number(number: int) | Flag(flag: bool) | Instant(nanos: int)

  type Row = map<string, Value>

  function Column(row: Row, col: string): Value {
    if col in row then row[col] else Null
  }

  /** The database's order of values, its case folding, and its rendering of values as text. */
  datatype Semantics = Semantics(less: (Value, Value) -> bool, fold: char -> char, render: Value -> string)

  ghost predicate StrictOrder(less: (Value, Value) -> bool) {
    && (forall a :: !less(a, a))
    && (forall a, b, c :: less(a, b) && less(b, c) ==> less(a, c))
    && (forall a, b :: a != b ==> less(a, b) || less(b, a))
  }

  // ---------------------------------------------------------------- three-valued logic

  datatype Truth = True | False | Unknown

  function Lift(b: bool): Truth { if b then True else False }

  function And(a: Truth, b: Truth): Truth {
    if a.False? || b.False? then False else if a.True? && b.True? then True else Unknown
  }

  function Or(a: Truth, b: Truth): Truth {
    if a.True? || b.True? then True else if a.False? && b.False? then False else Unknown
  }

  function Not(a: Truth): Truth {
    match a case True => False case False => True case Unknown => Unknown
  }

  // ---------------------------------------------------------------- conditions

  datatype CompareOp = Eq | Ne | Lt | Lte | Gt | Gte

  /** Placeholders are numbered from 1. */
  datatype Atom =
    | IsNull(col: string)
    | IsNotNull(col: string)
    | Compare(col: string, op: CompareOp, arg: nat)
    | InList(col: string, args: seq<nat>, negated: bool)
    | ILike(col: string, arg: nat)
    | NotDistinct(col: string, arg: nat)

  datatype Clause = Single(atom: Atom) | AnyOf(parts: seq<seq<Atom>>)

  function ArgAt(args: seq<Value>, n: nat): Value {
    if 1 <= n <= |args| then args[n - 1] else Null
  }

  predicate Relates(sem: Semantics, op: CompareOp, a: Value, b: Value) {
    match op
    case Eq => a == b
    case Ne => a != b
    case Lt => sem.less(a, b)
    case Lte => sem.less(a, b) || a == b
    case Gt => sem.less(b, a)
    case Gte => sem.less(b, a) || a == b
  }

  function Comparison(sem: Semantics, op: CompareOp, a: Value, b: Value): Truth {
    if a.Null? || b.Null? then Unknown else Lift(Relates(sem, op, a, b))
  }

  function Membership(sem: Semantics, v: Value, ns: seq<nat>, args: seq<Value>): Truth {
    if ns == [] then False
    else Or(Comparison(sem, Eq, v, ArgAt(args, ns[0])), Membership(sem, v, ns[1..], args))
  }

  function EvalAtom(sem: Semantics, atom: Atom, row: Row, args: seq<Value>): Truth {
    var v := Column(row, atom.col);
    match atom
    case IsNull(_) => Lift(v.Null?)
    case IsNotNull(_) => Lift(!v.Null?)
    case Compare(_, op, n) => Comparison(sem, op, v, ArgAt(args, n))
    case InList(_, ns, negated) =>
      var r := Membership(sem, v, ns, args);
      if negated then Not(r) else r
    case ILike(_, n) =>
      var p := ArgAt(args, n);
      if v.Null? || !p.Text? then Unknown else Lift(Like.Matches(sem.fold, p.text, sem.render(v)))
    case NotDistinct(_, n) => Lift(v == ArgAt(args, n))
  }

  function EvalAll(sem: Semantics, atoms: seq<Atom>, row: Row, args: seq<Value>): Truth {
    if atoms == [] then True
    else And(EvalAtom(sem, atoms[0], row, args), EvalAll(sem, atoms[1..], row, args))
  }

  function EvalAny(sem: Semantics, parts: seq<seq<Atom>>, row: Row, args: seq<Value>): Truth {
    if parts == [] then False
    else Or(EvalAll(sem, parts[0], row, args), EvalAny(sem, parts[1..], row, args))
  }

  function Eval(sem: Semantics, clause: Clause, row: Row, args: seq<Value>): Truth {
    match clause
    case Single(atom) => EvalAtom(sem, atom, row, args)
    case AnyOf(parts) => EvalAny(sem, parts, row, args)
  }

  /** WHERE keeps the rows on which every clause is true. */
  predicate Keeps(sem: Semantics, where: seq<Clause>, args: seq<Value>, row: Row) {
    forall i :: 0 <= i < |where| ==> Eval(sem, where[i], row, args).True?
  }

  lemma {:induction false} AllTrue(sem: Semantics, atoms: seq<Atom>, row: Row, args: seq<Value>)
    ensures EvalAll(sem, atoms, row, args).True? <==>
              forall i :: 0 <= i < |atoms| ==> EvalAtom(sem, atoms[i], row, args).True?
    decreases |atoms|
  {
    if atoms != [] {
      AllTrue(sem, atoms[1..], row, args);
      assert forall i :: 0 < i < |atoms| ==> atoms[i] == atoms[1..][i - 1];
      assert forall i :: 0 <= i < |atoms[1..]| ==> atoms[1..][i] == atoms[i + 1];
    }
  }

  lemma AllTrueConcat(sem: Semantics, a: seq<Atom>, b: seq<Atom>, row: Row, args: seq<Value>)
    ensures EvalAll(sem, a + b, row, args).True? <==>
              EvalAll(sem, a, row, args).True? && EvalAll(sem, b, row, args).True?
  {
    AllTrue(sem, a, row, args);
    AllTrue(sem, b, row, args);
    AllTrue(sem, a + b, row, args);
    assert forall i :: 0 <= i < |a| ==> (a + b)[i] == a[i];
    assert forall i :: 0 <= i < |b| ==> (a + b)[|a| + i] == b[i];
  }

  lemma {:induction false} AnyTrue(sem: Semantics, parts: seq<seq<Atom>>, row: Row, args: seq<Value>)
    ensures EvalAny(sem, parts, row, args).True? <==>
              exists i :: 0 <= i < |parts| && EvalAll(sem, parts[i], row, args).True?
    decreases |parts|
  {
    if parts != [] {
      AnyTrue(sem, parts[1..], row, args);
      assert forall i :: 0 < i < |parts| ==> parts[i] == parts[1..][i - 1];
      assert forall i :: 0 <= i < |parts[1..]| ==> parts[1..][i] == parts[i + 1];
    }
  }

  /** Over non-null values, membership is true if one of them is equal and false if none is. */
  lemma {:induction false} MembershipOf(sem: Semantics, v: Value, ns: seq<nat>, args: seq<Value>)
    requires forall i :: 0 <= i < |ns| ==> !ArgAt(args, ns[i]).Null?
    ensures !v.Null? ==> Membership(sem, v, ns, args) == Lift(exists i :: 0 <= i < |ns| && ArgAt(args, ns[i]) == v)
    ensures v.Null? && ns != [] ==> Membership(sem, v, ns, args).Unknown?
    decreases |ns|
  {
    if ns != [] {
      MembershipOf(sem, v, ns[1..], args);
      assert forall i :: 0 < i < |ns| ==> ns[i] == ns[1..][i - 1];
      assert forall i :: 0 <= i < |ns[1..]| ==> ns[1..][i] == ns[i + 1];
    }
  }

  // ---------------------------------------------------------------- placeholders

  predicate InRange(n: nat, size: nat) { 1 <= n <= size }

  predicate AtomPlaced(atom: Atom, size: nat) {
    match atom
    case Compare(_, _, n) => InRange(n, size)
    case InList(_, ns, _) => forall n :: n in ns ==> InRange(n, size)
    case ILike(_, n) => InRange(n, size)
    case NotDistinct(_, n) => InRange(n, size)
    case _ => true
  }

  predicate Placed(clause: Clause, size: nat) {
    match clause
    case Single(atom) => AtomPlaced(atom, size)
    case AnyOf(parts) =>
      forall i, j :: 0 <= i < |parts| && 0 <= j < |parts[i]| ==> AtomPlaced(parts[i][j], size)
  }

  lemma {:induction false} MembershipStable(sem: Semantics, v: Value, ns: seq<nat>, args: seq<Value>, more: seq<Value>)
    requires args <= more && forall n :: n in ns ==> InRange(n, |args|)
    ensures Membership(sem, v, ns, args) == Membership(sem, v, ns, more)
    decreases |ns|
  {
    if ns != [] {
      assert ns[0] in ns;
      MembershipStable(sem, v, ns[1..], args, more);
    }
  }

  lemma AtomStable(sem: Semantics, atom: Atom, row: Row, args: seq<Value>, more: seq<Value>)
    requires args <= more && AtomPlaced(atom, |args|)
    ensures EvalAtom(sem, atom, row, args) == EvalAtom(sem, atom, row, more) && AtomPlaced(atom, |more|)
  {
    if atom.InList? { MembershipStable(sem, Column(row, atom.col), atom.args, args, more); }
  }

  lemma {:induction false} AllStable(sem: Semantics, atoms: seq<Atom>, row: Row, args: seq<Value>, more: seq<Value>)
    requires args <= more && forall j :: 0 <= j < |atoms| ==> AtomPlaced(atoms[j], |args|)
    ensures EvalAll(sem, atoms, row, args) == EvalAll(sem, atoms, row, more)
    decreases |atoms|
  {
    if atoms != [] {
      AtomStable(sem, atoms[0], row, args, more);
      AllStable(sem, atoms[1..], row, args, more);
    }
  }

  lemma {:induction false} AnyStable(sem: Semantics, parts: seq<seq<Atom>>, row: Row,
                                     args: seq<Value>, more: seq<Value>)
    requires args <= more && Placed(AnyOf(parts), |args|)
    ensures EvalAny(sem, parts, row, args) == EvalAny(sem, parts, row, more)
    decreases |parts|
  {
    if parts != [] {
      assert forall j :: 0 <= j < |parts[0]| ==> AtomPlaced(parts[0][j], |args|);
      AllStable(sem, parts[0], row, args, more);
      assert forall i, j :: 0 <= i < |parts[1..]| && 0 <= j < |parts[1..][i]| ==> parts[1..][i][j] == parts[i + 1][j];
      AnyStable(sem, parts[1..], row, args, more);
    }
  }

  /** A clause whose placeholders are filled does not change when arguments are appended. */
  lemma ClauseStable(sem: Semantics, clause: Clause, row: Row, args: seq<Value>, more: seq<Value>)
    requires args <= more && Placed(clause, |args|)
    ensures Eval(sem, clause, row, args) == Eval(sem, clause, row, more) && Placed(clause, |more|)
  {
    match clause
    case Single(atom) => AtomStable(sem, atom, row, args, more);
    case AnyOf(parts) =>
      AnyStable(sem, parts, row, args, more);
      forall i, j | 0 <= i < |parts| && 0 <= j < |parts[i]| ensures AtomPlaced(parts[i][j], |more|) {
        AtomStable(sem, parts[i][j], row, args, more);
      }
  }
}

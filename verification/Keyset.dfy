/**
  Keyset pagination: the lexicographic order over several columns, each
  ascending or descending, and the OR-of-ANDs predicate that continues after a
  given position in it.
 */
module Keyset {
  import opened Options
  import opened Sql

  datatype Key = Key(column: string, descending: bool)

  /** One column's values in the direction of its sort; nulls come last in either. */
  predicate Precedes(sem: Semantics, key: Key, a: Value, b: Value) {
    !a.Null? && (b.Null? || if key.descending then sem.less(b, a) else sem.less(a, b))
  }

  /** The lexicographic order of key values. */
  predicate Before(sem: Semantics, keys: seq<Key>, a: seq<Value>, b: seq<Value>)
    requires |a| == |b| == |keys|
  {
    keys != [] && (Precedes(sem, keys[0], a[0], b[0]) || (a[0] == b[0] && Before(sem, keys[1..], a[1..], b[1..])))
  }

  function KeyValues(keys: seq<Key>, row: Row): (vs: seq<Value>)
    ensures |vs| == |keys|
  {
    seq(|keys|, i requires 0 <= i < |keys| => Column(row, keys[i].column))
  }

  predicate NonNull(vs: seq<Value>) {
    forall i :: 0 <= i < |vs| ==> !vs[i].Null?
  }

  // ---------------------------------------------------------------- a strict total order

  lemma {:induction false} BeforeIrreflexive(sem: Semantics, keys: seq<Key>, a: seq<Value>)
    requires StrictOrder(sem.less) && |a| == |keys|
    ensures !Before(sem, keys, a, a)
    decreases |keys|
  {
    if keys != [] { BeforeIrreflexive(sem, keys[1..], a[1..]); }
  }

  lemma {:induction false} BeforeTransitive(sem: Semantics, keys: seq<Key>, a: seq<Value>, b: seq<Value>, c: seq<Value>)
    requires StrictOrder(sem.less) && |a| == |b| == |c| == |keys|
    requires Before(sem, keys, a, b) && Before(sem, keys, b, c)
    ensures Before(sem, keys, a, c)
    decreases |keys|
  {
    if a[0] == b[0] == c[0] && Before(sem, keys[1..], a[1..], b[1..]) && Before(sem, keys[1..], b[1..], c[1..]) {
      BeforeTransitive(sem, keys[1..], a[1..], b[1..], c[1..]);
    }
  }

  lemma {:induction false} BeforeTotal(sem: Semantics, keys: seq<Key>, a: seq<Value>, b: seq<Value>)
    requires StrictOrder(sem.less) && |a| == |b| == |keys| && a != b
    ensures Before(sem, keys, a, b) || Before(sem, keys, b, a)
    decreases |keys|
  {
    if a[0] == b[0] {
      assert a == [a[0]] + a[1..] && b == [b[0]] + b[1..];
      BeforeTotal(sem, keys[1..], a[1..], b[1..]);
    }
  }

  /** The first column in which two key lists differ decides. */
  ghost predicate SplitsAt(sem: Semantics, keys: seq<Key>, a: seq<Value>, b: seq<Value>, i: int)
    requires |a| == |b| == |keys|
  {
    0 <= i < |keys| && (forall j :: 0 <= j < i ==> a[j] == b[j]) && Precedes(sem, keys[i], a[i], b[i])
  }

  lemma {:induction false} BeforeSplits(sem: Semantics, keys: seq<Key>, a: seq<Value>, b: seq<Value>)
    requires |a| == |b| == |keys|
    ensures Before(sem, keys, a, b) <==> exists i :: SplitsAt(sem, keys, a, b, i)
    decreases |keys|
  {
    if keys != [] {
      BeforeSplits(sem, keys[1..], a[1..], b[1..]);
      if Precedes(sem, keys[0], a[0], b[0]) {
        assert SplitsAt(sem, keys, a, b, 0);
      } else if a[0] == b[0] {
        if i :| SplitsAt(sem, keys[1..], a[1..], b[1..], i) {
          assert forall j :: 0 < j < i + 1 ==> a[j] == a[1..][j - 1] && b[j] == b[1..][j - 1];
          assert SplitsAt(sem, keys, a, b, i + 1);
        }
        if i :| SplitsAt(sem, keys, a, b, i) {
          assert forall j :: 0 <= j < i - 1 ==> a[1..][j] == a[j + 1] && b[1..][j] == b[j + 1];
          assert SplitsAt(sem, keys[1..], a[1..], b[1..], i - 1);
        }
      }
    }
  }

  // ---------------------------------------------------------------- the emitted predicate

  function Passed(key: Key, n: nat): seq<Atom> {
    [IsNotNull(key.column), Compare(key.column, if key.descending then Lt else Gt, n)]
  }

  /** Equal on the columns before i, past the cursor on column i; placeholders count up from start. */
  function PartAtoms(keys: seq<Key>, i: nat, start: nat): seq<Atom>
    requires i < |keys|
  {
    Equalities(keys, i, start) + Passed(keys[i], start + i)
  }

  function Equalities(keys: seq<Key>, i: nat, start: nat): (r: seq<Atom>)
    requires i <= |keys|
    ensures |r| == i
  {
    seq(i, j requires 0 <= j < i => NotDistinct(keys[j].column, start + j))
  }

  function KeysetArgs(values: seq<Value>, k: nat): seq<Value>
    requires k <= |values|
  {
    if k == 0 then [] else KeysetArgs(values, k - 1) + values[..k]
  }

  function KeysetParts(keys: seq<Key>, values: seq<Value>, k: nat, argStart: nat): (r: seq<seq<Atom>>)
    requires k <= |keys| == |values|
    ensures |r| == k
  {
    if k == 0 then []
    else KeysetParts(keys, values, k - 1, argStart)
         + [PartAtoms(keys, k - 1, argStart + |KeysetArgs(values, k - 1)|)]
  }

  /** One disjunct: an equality per earlier column, each with its argument, then the comparison. */
  method BuildPart(keys: seq<Key>, values: seq<Option<Value>>, i: nat, argStart: nat, before: seq<Value>)
    returns (ok: bool, ands: seq<Atom>, args: seq<Value>)
    requires i < |keys| == |values| && forall k :: 0 <= k < i ==> values[k].Some?
    ensures ok <==> values[i].Some?
    ensures ok ==> ands == PartAtoms(keys, i, argStart + |before|) && args == before + Prefix(values, i + 1)
  {
    ands, args := [], before;
    var j := 0;
    while j < i
      invariant j <= i && ands == Equalities(keys, j, argStart + |before|)
      invariant args == before + Prefix(values, j)
    {
      ands := ands + [NotDistinct(keys[j].column, argStart + |args|)];
      args := args + [values[j].value];
      j := j + 1;
    }
    ands := ands + Passed(keys[i], argStart + |args|);
    if values[i].None? { return false, [], []; }
    args := args + [values[i].value];
    ok := true;
  }

  /**
    The whole disjunction.  values are the cursor's values after coercion, None
    where coercion failed.
   */
  method KeysetPredicate(keys: seq<Key>, values: seq<Option<Value>>, argStart: nat)
    returns (ok: bool, parts: seq<seq<Atom>>, args: seq<Value>)
    requires |keys| == |values|
    ensures ok <==> forall i :: 0 <= i < |values| ==> values[i].Some?
    ensures ok ==> args == KeysetArgs(Prefix(values, |values|), |keys|)
    ensures ok ==> parts == KeysetParts(keys, Prefix(values, |values|), |keys|, argStart)
  {
    parts, args := [], [];
    var i := 0;
    while i < |keys|
      invariant i <= |keys| && forall k :: 0 <= k < i ==> values[k].Some?
      invariant args == KeysetArgs(Prefix(values, i), i)
      invariant parts == KeysetParts(keys[..i], Prefix(values, i), i, argStart)
    {
      var ands;
      ghost var start := argStart + |args|;
      ok, ands, args := BuildPart(keys, values, i, argStart, args);
      if !ok { return false, [], []; }
      ArgsExtend(Prefix(values, i), Prefix(values, i + 1), i);
      PartsExtend(keys[..i], keys[..i + 1], Prefix(values, i), Prefix(values, i + 1), i, argStart);
      assert Prefix(values, i + 1)[..i + 1] == Prefix(values, i + 1);
      assert Equalities(keys, i, start) == Equalities(keys[..i + 1], i, start);
      parts := parts + [ands];
      i := i + 1;
    }
    ok := true;
    assert keys[..i] == keys;
  }

  /** The first k values, all of them coerced. */
  ghost function Prefix(values: seq<Option<Value>>, k: nat): (r: seq<Value>)
    requires k <= |values| && forall i :: 0 <= i < k ==> values[i].Some?
    ensures |r| == k
  {
    seq(k, i requires 0 <= i < k => values[i].value)
  }

  lemma {:induction false} ArgsExtend(vs: seq<Value>, ws: seq<Value>, k: nat)
    requires k <= |vs| && vs <= ws
    ensures KeysetArgs(vs, k) == KeysetArgs(ws, k)
  {
    if k > 0 {
      ArgsExtend(vs, ws, k - 1);
      assert vs[..k] == ws[..k];
    }
  }

  lemma {:induction false} PartsExtend(keys: seq<Key>, more: seq<Key>, vs: seq<Value>, ws: seq<Value>,
                                       k: nat, argStart: nat)
    requires k <= |keys| == |vs| && |more| == |ws| && keys <= more && vs <= ws
    ensures KeysetParts(keys, vs, k, argStart) == KeysetParts(more, ws, k, argStart)
  {
    if k > 0 {
      PartsExtend(keys, more, vs, ws, k - 1, argStart);
      ArgsExtend(vs, ws, k - 1);
      var start := argStart + |KeysetArgs(vs, k - 1)|;
      assert Equalities(keys, k - 1, start) == Equalities(more, k - 1, start);
    }
  }

  // ---------------------------------------------------------------- what it means

  /** Each placeholder of part i is filled with its own cursor value. */
  lemma {:induction false} PartArgs(before: seq<Value>, values: seq<Value>, n: nat, i: nat, j: nat)
    requires j <= i < n <= |values|
    ensures var start := |before| + 1 + |KeysetArgs(values, i)|;
            && start + j <= |before + KeysetArgs(values, n)|
            && ArgAt(before + KeysetArgs(values, n), start + j) == values[j]
    decreases n
  {
    if n > i + 1 {
      PartArgs(before, values, n - 1, i, j);
      var short, long := before + KeysetArgs(values, n - 1), before + KeysetArgs(values, n);
      assert long == short + values[..n];
    } else {
      var k := |before| + |KeysetArgs(values, i)| + j;
      assert KeysetArgs(values, n) == KeysetArgs(values, i) + values[..n];
      assert (before + KeysetArgs(values, n))[k] == values[..n][j];
    }
  }

  lemma {:induction false} PartAt(keys: seq<Key>, values: seq<Value>, k: nat, argStart: nat, i: nat)
    requires i < k <= |keys| == |values|
    ensures KeysetParts(keys, values, k, argStart)[i] == PartAtoms(keys, i, argStart + |KeysetArgs(values, i)|)
    decreases k
  {
    if i < k - 1 { PartAt(keys, values, k - 1, argStart, i); }
  }

  lemma EqualitiesMean(sem: Semantics, keys: seq<Key>, values: seq<Value>, i: nat, start: nat,
                       row: Row, args: seq<Value>)
    requires i <= |keys| == |values| && forall j :: 0 <= j < i ==> ArgAt(args, start + j) == values[j]
    ensures EvalAll(sem, Equalities(keys, i, start), row, args).True? <==>
              forall j :: 0 <= j < i ==> values[j] == KeyValues(keys, row)[j]
  {
    var atoms, vs := Equalities(keys, i, start), KeyValues(keys, row);
    AllTrue(sem, atoms, row, args);
    forall j | 0 <= j < i ensures EvalAtom(sem, atoms[j], row, args).True? <==> values[j] == vs[j] {
      assert atoms[j] == NotDistinct(keys[j].column, start + j);
    }
  }

  lemma PassedMeans(sem: Semantics, key: Key, value: Value, n: nat, row: Row, args: seq<Value>)
    requires ArgAt(args, n) == value && !value.Null?
    ensures EvalAll(sem, Passed(key, n), row, args).True? <==>
              !Column(row, key.column).Null? && Precedes(sem, key, value, Column(row, key.column))
  {
    var atoms := Passed(key, n);
    AllTrue(sem, atoms, row, args);
    assert EvalAtom(sem, atoms[0], row, args).True? <==> !Column(row, key.column).Null?;
    assert !Column(row, key.column).Null? ==>
             (EvalAtom(sem, atoms[1], row, args).True? <==> Precedes(sem, key, value, Column(row, key.column)));
  }

  lemma PartMeans(sem: Semantics, keys: seq<Key>, values: seq<Value>, i: nat, start: nat, row: Row, args: seq<Value>)
    requires |keys| == |values| && i < |keys| && NonNull(values)
    requires forall j :: 0 <= j <= i ==> ArgAt(args, start + j) == values[j]
    ensures EvalAll(sem, PartAtoms(keys, i, start), row, args).True? <==>
              SplitsAt(sem, keys, values, KeyValues(keys, row), i) && !KeyValues(keys, row)[i].Null?
  {
    assert !values[i].Null?;
    EqualitiesMean(sem, keys, values, i, start, row, args);
    PassedMeans(sem, keys[i], values[i], start + i, row, args);
    AllTrueConcat(sem, Equalities(keys, i, start), Passed(keys[i], start + i), row, args);
  }

  lemma PartFilled(before: seq<Value>, values: seq<Value>, i: nat)
    requires i < |values|
    ensures forall j :: 0 <= j <= i ==>
              ArgAt(before + KeysetArgs(values, |values|), |before| + 1 + |KeysetArgs(values, i)| + j) == values[j]
  {
    forall j | 0 <= j <= i
      ensures ArgAt(before + KeysetArgs(values, |values|), |before| + 1 + |KeysetArgs(values, i)| + j) == values[j]
    {
      PartArgs(before, values, |values|, i, j);
    }
  }

  lemma BuiltPartMeans(sem: Semantics, keys: seq<Key>, values: seq<Value>, before: seq<Value>, row: Row, i: nat)
    requires |keys| == |values| && i < |keys| && NonNull(values)
    ensures EvalAll(sem, KeysetParts(keys, values, |keys|, |before| + 1)[i], row,
                    before + KeysetArgs(values, |keys|)).True? <==>
              SplitsAt(sem, keys, values, KeyValues(keys, row), i) && !KeyValues(keys, row)[i].Null?
  {
    PartAt(keys, values, |keys|, |before| + 1, i);
    PartFilled(before, values, i);
    PartMeans(sem, keys, values, i, |before| + 1 + |KeysetArgs(values, i)|, row, before + KeysetArgs(values, |keys|));
  }

  /** b differs from a first in column i, and is null there. */
  predicate NullAt(a: seq<Value>, b: seq<Value>, i: int)
    requires |a| == |b|
  {
    0 <= i < |a| && (forall j :: 0 <= j < i ==> a[j] == b[j]) && !a[i].Null? && b[i].Null?
  }

  /** The first column in which b differs from a is null in b. */
  ghost predicate CutByNull(a: seq<Value>, b: seq<Value>)
    requires |a| == |b|
  {
    exists i :: NullAt(a, b, i)
  }

  lemma SplitOnce(sem: Semantics, keys: seq<Key>, a: seq<Value>, b: seq<Value>, i: int, k: int)
    requires StrictOrder(sem.less) && |a| == |b| == |keys|
    requires SplitsAt(sem, keys, a, b, i) && NullAt(a, b, k)
    ensures i == k
  {
  }

  lemma AnySplits(sem: Semantics, keys: seq<Key>, values: seq<Value>, parts: seq<seq<Atom>>, row: Row, args: seq<Value>)
    requires |parts| == |keys| == |values| && StrictOrder(sem.less)
    requires var vs := KeyValues(keys, row);
             forall i :: 0 <= i < |keys| ==>
               (EvalAll(sem, parts[i], row, args).True? <==> SplitsAt(sem, keys, values, vs, i) && !vs[i].Null?)
    ensures var vs := KeyValues(keys, row);
            EvalAny(sem, parts, row, args).True? <==> Before(sem, keys, values, vs) && !CutByNull(values, vs)
  {
    var vs := KeyValues(keys, row);
    AnyTrue(sem, parts, row, args);
    BeforeSplits(sem, keys, values, vs);
    forall i, k | SplitsAt(sem, keys, values, vs, i) && NullAt(values, vs, k) ensures i == k {
      SplitOnce(sem, keys, values, vs, i, k);
    }
    assert forall i :: SplitsAt(sem, keys, values, vs, i) && vs[i].Null? ==> NullAt(values, vs, i);
  }

  /**
    Which rows the predicate keeps: those strictly after the cursor, nulls last,
    but for the ones whose first difference from the cursor is a null.
   */
  lemma KeysetMeans(sem: Semantics, keys: seq<Key>, values: seq<Value>, before: seq<Value>, row: Row)
    requires |keys| == |values| && NonNull(values) && StrictOrder(sem.less)
    ensures EvalAny(sem, KeysetParts(keys, values, |keys|, |before| + 1), row,
                    before + KeysetArgs(values, |keys|)).True? <==>
              Before(sem, keys, values, KeyValues(keys, row)) && !CutByNull(values, KeyValues(keys, row))
  {
    var parts, args := KeysetParts(keys, values, |keys|, |before| + 1), before + KeysetArgs(values, |keys|);
    var vs := KeyValues(keys, row);
    forall i: nat | i < |keys|
      ensures EvalAll(sem, parts[i], row, args).True? <==> SplitsAt(sem, keys, values, vs, i) && !vs[i].Null?
    {
      BuiltPartMeans(sem, keys, values, before, row, i);
    }
    AnySplits(sem, keys, values, parts, row, args);
  }

  /** What the predicate of a cursor with these values keeps. */
  ghost predicate Kept(sem: Semantics, keys: seq<Key>, values: seq<Value>, vs: seq<Value>)
    requires |keys| == |values| == |vs|
  {
    Before(sem, keys, values, vs) && !CutByNull(values, vs)
  }

  ghost predicate KeptAt(sem: Semantics, keys: seq<Key>, values: seq<Value>, vs: seq<Value>, i: int)
    requires |keys| == |values| == |vs|
  {
    SplitsAt(sem, keys, values, vs, i) && !vs[i].Null?
  }

  lemma KeptSplits(sem: Semantics, keys: seq<Key>, values: seq<Value>, vs: seq<Value>)
    requires |keys| == |values| == |vs| && StrictOrder(sem.less)
    ensures Kept(sem, keys, values, vs) <==> exists i :: KeptAt(sem, keys, values, vs, i)
  {
    BeforeSplits(sem, keys, values, vs);
    forall i, k | SplitsAt(sem, keys, values, vs, i) && NullAt(values, vs, k) ensures i == k {
      SplitOnce(sem, keys, values, vs, i, k);
    }
    if Kept(sem, keys, values, vs) {
      var i :| SplitsAt(sem, keys, values, vs, i);
      assert vs[i].Null? ==> NullAt(values, vs, i);
      assert KeptAt(sem, keys, values, vs, i);
    }
  }

  lemma SplitsFurther(sem: Semantics, keys: seq<Key>, a: seq<Value>, b: seq<Value>, vs: seq<Value>, i: int, j: int)
    requires |keys| == |a| == |b| == |vs| && StrictOrder(sem.less) && NonNull(b)
    requires SplitsAt(sem, keys, a, b, i) && KeptAt(sem, keys, b, vs, j)
    ensures KeptAt(sem, keys, a, vs, if i < j then i else j)
  {
    assert !b[i].Null? && !b[j].Null?;
  }

  /** A later cursor keeps no row that an earlier one has lost. */
  lemma KeptShrinks(sem: Semantics, keys: seq<Key>, a: seq<Value>, b: seq<Value>, vs: seq<Value>)
    requires |keys| == |a| == |b| == |vs| && StrictOrder(sem.less) && NonNull(b)
    requires Before(sem, keys, a, b) && Kept(sem, keys, b, vs)
    ensures Kept(sem, keys, a, vs)
  {
    BeforeSplits(sem, keys, a, b);
    KeptSplits(sem, keys, b, vs);
    KeptSplits(sem, keys, a, vs);
    var i :| SplitsAt(sem, keys, a, b, i);
    var j :| KeptAt(sem, keys, b, vs, j);
    SplitsFurther(sem, keys, a, b, vs, i, j);
  }

  /** Values without nulls that agree with vs wherever it has one. */
  ghost predicate Fills(filled: seq<Value>, vs: seq<Value>) {
    |filled| == |vs| && NonNull(filled) && forall i :: 0 <= i < |vs| && !vs[i].Null? ==> filled[i] == vs[i]
  }

  /** The cursor made of a row that a cursor kept comes after that cursor, and does not keep the row. */
  lemma FilledAdvances(sem: Semantics, keys: seq<Key>, values: seq<Value>, vs: seq<Value>, filled: seq<Value>)
    requires |keys| == |values| == |vs| && StrictOrder(sem.less) && NonNull(values)
    requires Kept(sem, keys, values, vs) && Fills(filled, vs)
    ensures Before(sem, keys, values, filled)
  {
    KeptSplits(sem, keys, values, vs);
    var i :| KeptAt(sem, keys, values, vs, i);
    assert forall j :: 0 <= j < i ==> !values[j].Null?;
    assert SplitsAt(sem, keys, values, filled, i);
    BeforeSplits(sem, keys, values, filled);
  }

  lemma FilledDrops(sem: Semantics, keys: seq<Key>, vs: seq<Value>, filled: seq<Value>)
    requires |keys| == |vs| && StrictOrder(sem.less) && Fills(filled, vs)
    ensures !Kept(sem, keys, filled, vs)
  {
    KeptSplits(sem, keys, filled, vs);
  }

  /** What it drops is after the cursor in the query's own order. */
  lemma CutIsAfter(sem: Semantics, keys: seq<Key>, values: seq<Value>, vs: seq<Value>)
    requires |keys| == |values| == |vs| && CutByNull(values, vs)
    ensures Before(sem, keys, values, vs)
  {
    var i :| NullAt(values, vs, i);
    assert SplitsAt(sem, keys, values, vs, i);
    BeforeSplits(sem, keys, values, vs);
  }

  /** A row without a start time, say, is after every cursor in that order and on no page that a cursor continues. */
  lemma NullLost(sem: Semantics, key: Key, value: Value, before: seq<Value>)
    requires StrictOrder(sem.less) && !value.Null?
    ensures var row: Row := map[key.column := Null];
            && Before(sem, [key], [value], KeyValues([key], row))
            && !EvalAny(sem, KeysetParts([key], [value], 1, |before| + 1), row, before + KeysetArgs([value], 1)).True?
  {
    var row: Row := map[key.column := Null];
    assert NullAt([value], KeyValues([key], row), 0);
    CutIsAfter(sem, [key], [value], KeyValues([key], row));
    KeysetMeans(sem, [key], [value], before, row);
  }

  lemma KeysetPlaced(keys: seq<Key>, values: seq<Value>, before: seq<Value>)
    requires |keys| == |values|
    ensures Placed(AnyOf(KeysetParts(keys, values, |keys|, |before| + 1)), |before + KeysetArgs(values, |keys|)|)
  {
    var parts := KeysetParts(keys, values, |keys|, |before| + 1);
    var size := |before + KeysetArgs(values, |keys|)|;
    forall i, j | 0 <= i < |parts| && 0 <= j < |parts[i]| ensures AtomPlaced(parts[i][j], size) {
      PartAt(keys, values, |keys|, |before| + 1, i);
      PartArgs(before, values, |keys|, i, if j < i then j else i);
    }
  }

  const TIMELINE: seq<Key> := [Key("ts", true), Key("kind", false), Key("id", false)]

  /** The condition the session timeline writes out by hand. */
  function TimelineCondition(sem: Semantics, cursor: seq<Value>, row: seq<Value>): Truth
    requires |cursor| == |row| == 3
  {
    Or(Comparison(sem, Lt, row[0], cursor[0]),
       And(Comparison(sem, Eq, row[0], cursor[0]),
           Or(Comparison(sem, Gt, row[1], cursor[1]),
              And(Comparison(sem, Eq, row[1], cursor[1]), Comparison(sem, Gt, row[2], cursor[2])))))
  }

  /** It keeps what the built predicate would: newest first, then kind, then id. */
  lemma TimelineMeans(sem: Semantics, cursor: seq<Value>, row: seq<Value>)
    requires |cursor| == |row| == 3 && NonNull(cursor) && StrictOrder(sem.less)
    ensures TimelineCondition(sem, cursor, row).True? <==>
              Before(sem, TIMELINE, cursor, row) && !CutByNull(cursor, row)
  {
    BeforeSplits(sem, TIMELINE, cursor, row);
    assert !cursor[0].Null? && !cursor[1].Null? && !cursor[2].Null?;
    forall i, k | SplitsAt(sem, TIMELINE, cursor, row, i) && NullAt(cursor, row, k) ensures i == k {
      SplitOnce(sem, TIMELINE, cursor, row, i, k);
    }
    assert forall i :: SplitsAt(sem, TIMELINE, cursor, row, i) && row[i].Null? ==> NullAt(cursor, row, i);
    assert SplitsAt(sem, TIMELINE, cursor, row, 0) <==> row[0].Null? || sem.less(row[0], cursor[0]);
    assert SplitsAt(sem, TIMELINE, cursor, row, 1) <==>
             cursor[0] == row[0] && (row[1].Null? || sem.less(cursor[1], row[1]));
    assert SplitsAt(sem, TIMELINE, cursor, row, 2) <==>
             cursor[0] == row[0] && cursor[1] == row[1] && (row[2].Null? || sem.less(cursor[2], row[2]));
  }
}

/**
  Listing a page of a collection.  One call compiles the request, reads one row
  more than the page, keeps the page and signs a cursor over the last row's sort
  values.  The database is any function that answers a compiled query over a
  fixed table.
 */
module AdminList {
  import opened Options
  import opened Sql
  import opened Keyset
  import opened Query
  import opened QueryCompile

  function Min(a: nat, b: nat): nat { if a < b then a else b }

  // ---------------------------------------------------------------- sorted listings

  predicate Sorted(sem: Semantics, keys: seq<Key>, rows: seq<Row>) {
    forall i, j :: 0 <= i < j < |rows| ==> Before(sem, keys, KeyValues(keys, rows[i]), KeyValues(keys, rows[j]))
  }

  predicate SameElements(a: seq<Row>, b: seq<Row>) {
    (forall r :: r in a ==> r in b) && (forall r :: r in b ==> r in a)
  }

  lemma SortedHead(sem: Semantics, keys: seq<Key>, a: seq<Row>, r: Row)
    requires Sorted(sem, keys, a) && r in a && r != a[0]
    ensures Before(sem, keys, KeyValues(keys, a[0]), KeyValues(keys, r))
  {
    var k :| 0 <= k < |a| && a[k] == r;
  }

  lemma SortedDistinct(sem: Semantics, keys: seq<Key>, a: seq<Row>)
    requires StrictOrder(sem.less) && Sorted(sem, keys, a) && a != []
    ensures a[0] !in a[1..]
  {
    forall k | 0 <= k < |a[1..]| ensures a[1..][k] != a[0] {
      BeforeIrreflexive(sem, keys, KeyValues(keys, a[0]));
      assert Before(sem, keys, KeyValues(keys, a[0]), KeyValues(keys, a[k + 1]));
    }
  }

  lemma SameHead(sem: Semantics, keys: seq<Key>, a: seq<Row>, b: seq<Row>)
    requires StrictOrder(sem.less) && Sorted(sem, keys, a) && Sorted(sem, keys, b) && SameElements(a, b)
    requires a != [] && b != []
    ensures a[0] == b[0]
  {
    assert a[0] in b && b[0] in a;
    if a[0] != b[0] {
      SortedHead(sem, keys, a, b[0]);
      SortedHead(sem, keys, b, a[0]);
      BeforeTransitive(sem, keys, KeyValues(keys, a[0]), KeyValues(keys, b[0]), KeyValues(keys, a[0]));
      BeforeIrreflexive(sem, keys, KeyValues(keys, a[0]));
    }
  }

  /** A set of rows has at most one listing in a strict order. */
  lemma {:induction false} ListingUnique(sem: Semantics, keys: seq<Key>, a: seq<Row>, b: seq<Row>)
    requires StrictOrder(sem.less) && Sorted(sem, keys, a) && Sorted(sem, keys, b) && SameElements(a, b)
    ensures a == b
    decreases |a|
  {
    if a == [] {
      assert forall k :: 0 <= k < |b| ==> b[k] in a;
    } else {
      assert a[0] in b;
      SameHead(sem, keys, a, b);
      SortedDistinct(sem, keys, a);
      SortedDistinct(sem, keys, b);
      assert a == [a[0]] + a[1..] && b == [b[0]] + b[1..];
      forall r | r in a[1..] ensures r in b[1..] { assert r in a && r in b && r != b[0]; }
      forall r | r in b[1..] ensures r in a[1..] { assert r in b && r in a && r != a[0]; }
      ListingUnique(sem, keys, a[1..], b[1..]);
    }
  }

  // ---------------------------------------------------------------- the database

  /** All rows of the table a query keeps, in its order. */
  ghost predicate IsListing(sem: Semantics, table: set<Row>, c: Compiled, rows: seq<Row>) {
    && Sorted(sem, c.keys, rows)
    && (forall r :: r in rows <==> r in table && Keeps(sem, c.where, c.args, r))
  }

  ghost predicate Answers(sem: Semantics, table: set<Row>, c: Compiled, rows: seq<Row>) {
    exists all :: IsListing(sem, table, c, all) && rows == all[..Min(c.limit + 1, |all|)]
  }

  /** A database answers every query in the given order over the table. */
  ghost predicate Database(sem: Semantics, table: set<Row>, keys: seq<Key>, db: Compiled -> seq<Row>) {
    forall c: Compiled :: c.keys == keys ==> Answers(sem, table, c, db(c))
  }

  // ---------------------------------------------------------------- one page

  datatype Page = Page(rows: seq<Row>, hasMore: bool, next: Cursor)

  function Formatted(format: Value -> string, vs: seq<Value>): (r: seq<string>)
    ensures |r| == |vs|
  {
    seq(|vs|, i requires 0 <= i < |vs| => format(vs[i]))
  }

  /** What is made of the rows read for a page. */
  function PageOf(format: Value -> string, c: Compiled, rows: seq<Row>): Page {
    var kept := rows[..Min(c.limit, |rows|)];
    var more := |rows| > c.limit;
    var last := if kept == [] then NoCursor
                else Verified(c.shape, Formatted(format, KeyValues(c.keys, kept[|kept| - 1])));
    Page(kept, more, if more then last else NoCursor)
  }

  /** Rows are consumed one by one; the extra one only says that there is more. */
  method ReadPage(format: Value -> string, c: Compiled, rows: seq<Row>) returns (page: Page)
    ensures page == PageOf(format, c, rows)
  {
    var kept, last, n := [], NoCursor, 0;
    while n < |rows|
      invariant n <= |rows| && kept == rows[..Min(c.limit, n)]
      invariant last == if kept == [] then NoCursor
                        else Verified(c.shape, Formatted(format, KeyValues(c.keys, kept[|kept| - 1])))
    {
      if n < c.limit {
        kept := kept + [rows[n]];
        last := Verified(c.shape, Formatted(format, KeyValues(c.keys, rows[n])));
      }
      n := n + 1;
    }
    page := Page(kept, n > c.limit, if n > c.limit then last else NoCursor);
  }

  method List(env: Env, format: Value -> string, col: Collection, req: Request, db: Compiled -> seq<Row>)
    returns (r: Option<Page>)
    ensures r.Some? <==> Accepts(env, col, req)
    ensures r.Some? ==> r.value == PageOf(format, CompiledOf(env, col, req), db(CompiledOf(env, col, req)))
  {
    var compiled := Compile(env, col, req);
    if compiled.Err? { return None; }
    var page := ReadPage(format, compiled.value, db(compiled.value));
    r := Some(page);
  }

  // ---------------------------------------------------------------- assumptions on the data

  /** Two rows differ in some sortable primary-key field. */
  ghost predicate KeyedBy(col: Collection, table: set<Row>) {
    forall r, s :: r in table && s in table && r != s ==> Distinguished(col, r, s)
  }

  predicate Distinguished(col: Collection, r: Row, s: Row) {
    exists i :: 0 <= i < |col.fields| && col.fields[i].pk && col.fields[i].sortable
                && FieldOf(col.fields, col.fields[i].name) == col.fields[i]
                && Column(r, col.fields[i].column) != Column(s, col.fields[i].column)
  }

  ghost predicate Setting(env: Env, col: Collection, table: set<Row>) {
    EnvOk(env) && StrictOrder(env.sem.less) && KeyedBy(col, table)
  }

  /** With the primary key among the sorts, different rows have different keys: the order is total. */
  lemma KeysTellApart(env: Env, col: Collection, req: Request, table: set<Row>, r: Row, s: Row)
    requires Setting(env, col, table) && r in table && s in table && r != s
    ensures var keys := KeysFor(col, req);
            Before(env.sem, keys, KeyValues(keys, r), KeyValues(keys, s))
            || Before(env.sem, keys, KeyValues(keys, s), KeyValues(keys, r))
  {
    var keys, sorts := KeysFor(col, req), EffectiveSorts(col, req.sorts);
    assert Distinguished(col, r, s);
    var i :| 0 <= i < |col.fields| && col.fields[i].pk && col.fields[i].sortable
             && FieldOf(col.fields, col.fields[i].name) == col.fields[i]
             && Column(r, col.fields[i].column) != Column(s, col.fields[i].column);
    PkSorted(if req.sorts == [] then col.defaultSorts else req.sorts, col.fields, i);
    var k :| 0 <= k < |sorts| && sorts[k].field == col.fields[i].name;
    assert KeyValues(keys, r)[k] != KeyValues(keys, s)[k];
    BeforeTotal(env.sem, keys, KeyValues(keys, r), KeyValues(keys, s));
  }

  lemma {:induction false} Insert(sem: Semantics, keys: seq<Key>, rows: seq<Row>, r: Row) returns (out: seq<Row>)
    requires StrictOrder(sem.less) && Sorted(sem, keys, rows)
    requires forall s :: s in rows ==> Before(sem, keys, KeyValues(keys, r), KeyValues(keys, s))
                                       || Before(sem, keys, KeyValues(keys, s), KeyValues(keys, r))
    ensures Sorted(sem, keys, out) && forall s :: s in out <==> s == r || s in rows
    decreases |rows|
  {
    if rows == [] {
      out := [r];
    } else if Before(sem, keys, KeyValues(keys, r), KeyValues(keys, rows[0])) {
      out := [r] + rows;
      forall s | s in rows ensures Before(sem, keys, KeyValues(keys, r), KeyValues(keys, s)) {
        if s != rows[0] {
          SortedHead(sem, keys, rows, s);
          BeforeTransitive(sem, keys, KeyValues(keys, r), KeyValues(keys, rows[0]), KeyValues(keys, s));
        }
      }
    } else {
      var rest := Insert(sem, keys, rows[1..], r);
      out := [rows[0]] + rest;
      assert rows == [rows[0]] + rows[1..];
      forall s | s in rest ensures Before(sem, keys, KeyValues(keys, rows[0]), KeyValues(keys, s)) {
        if s in rows[1..] {
          var k :| 0 <= k < |rows[1..]| && rows[1..][k] == s;
          assert rows[k + 1] == s;
        }
      }
    }
  }

  lemma {:induction false} ListingOf(sem: Semantics, keys: seq<Key>, rows: set<Row>) returns (out: seq<Row>)
    requires StrictOrder(sem.less)
    requires forall r, s :: r in rows && s in rows && r != s ==>
               Before(sem, keys, KeyValues(keys, r), KeyValues(keys, s))
               || Before(sem, keys, KeyValues(keys, s), KeyValues(keys, r))
    ensures Sorted(sem, keys, out) && forall s :: s in out <==> s in rows
    decreases |rows|
  {
    if rows == {} {
      out := [];
    } else {
      var r :| r in rows;
      var rest := ListingOf(sem, keys, rows - {r});
      out := Insert(sem, keys, rest, r);
    }
  }

  // ---------------------------------------------------------------- the order of a listing

  /** Two rows agree in the fields of the first k sorts. */
  predicate Agree(col: Collection, sorts: seq<Sort>, k: nat, r: Row, s: Row)
    requires k <= |sorts|
  {
    forall i :: 0 <= i < k ==>
      var f := FieldOf(col.fields, sorts[i].field); Column(r, f.column) == Column(s, f.column)
  }

  /** The value of a sort's field in a row. */
  function SortedBy(col: Collection, sort: Sort, r: Row): Value {
    Column(r, FieldOf(col.fields, sort.field).column)
  }

  /**
    A listing is in the order asked for, or in the default one if none is: of two
    rows that agree in the first sorts and differ in the next, the one with the
    smaller value comes first, or the larger one in a descending sort; and in
    either a row without a value comes after one with a value.
   */
  lemma ListedInOrder(env: Env, col: Collection, req: Request, table: set<Row>, all: seq<Row>, i: nat, j: nat, k: nat)
    requires StrictOrder(env.sem.less) && Accepts(env, col, req)
    requires IsListing(env.sem, table, CompiledOf(env, col, req), all) && i < j < |all|
    requires var sorts := if req.sorts == [] then col.defaultSorts else req.sorts;
             && k < |sorts| && Agree(col, sorts, k, all[i], all[j])
             && SortedBy(col, sorts[k], all[i]) != SortedBy(col, sorts[k], all[j])
    ensures var sort := (if req.sorts == [] then col.defaultSorts else req.sorts)[k];
            var x, y := SortedBy(col, sort, all[i]), SortedBy(col, sort, all[j]);
            && !x.Null?
            && (!y.Null? ==> if sort.descending then env.sem.less(y, x) else env.sem.less(x, y))
  {
    var sorts := if req.sorts == [] then col.defaultSorts else req.sorts;
    var keys, x, y := KeysFor(col, req), KeyValues(KeysFor(col, req), all[i]), KeyValues(KeysFor(col, req), all[j]);
    EffectiveSortsExactly(col, req.sorts);
    assert sorts <= EffectiveSorts(col, req.sorts);
    BeforeSplits(env.sem, keys, x, y);
    var m :| SplitsAt(env.sem, keys, x, y, m);
    assert forall l :: 0 <= l < |sorts| ==> EffectiveSorts(col, req.sorts)[l] == sorts[l];
    assert forall l :: 0 <= l < |sorts| ==>
             x[l] == SortedBy(col, sorts[l], all[i]) && y[l] == SortedBy(col, sorts[l], all[j]);
    assert forall l :: 0 <= l < k ==> x[l] == y[l];
    assert m == k;
  }

  /** So every query in that order has an answer. */
  lemma AnswerExists(env: Env, col: Collection, req: Request, table: set<Row>, c: Compiled)
    requires Setting(env, col, table) && c.keys == KeysFor(col, req)
    ensures exists rows :: Answers(env.sem, table, c, rows)
  {
    var kept := set r | r in table && Keeps(env.sem, c.where, c.args, r);
    forall r, s | r in kept && s in kept && r != s
      ensures Before(env.sem, c.keys, KeyValues(c.keys, r), KeyValues(c.keys, s))
              || Before(env.sem, c.keys, KeyValues(c.keys, s), KeyValues(c.keys, r))
    {
      KeysTellApart(env, col, req, table, r, s);
    }
    var all := ListingOf(env.sem, c.keys, kept);
    assert IsListing(env.sem, table, c, all);
    assert Answers(env.sem, table, c, all[..Min(c.limit + 1, |all|)]);
  }
}

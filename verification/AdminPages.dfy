/**
  Following the cursors of a listing.  A cursor holds the last row's sort values
  as text; the next page is what lies after the values that text reads back as.
  Values that are not null read back as themselves.  A null may be refused or
  read as something else, so pages that end on one, and rows that are null where
  they first differ from a cursor, are where a listing loses or repeats rows.
 */
module AdminPages {
  import opened Options
  import opened Sql
  import opened Keyset
  import opened Query
  import opened QueryCompile
  import opened AdminList

  /** A client's listing: its first request, and how sort values are rendered for its cursors. */
  datatype View = View(env: Env, format: Value -> string, col: Collection, req: Request) {
    function Keys(): seq<Key> { KeysFor(col, req) }

    function ValuesOf(row: Row): (vs: seq<Value>)
      ensures |vs| == |Keys()|
    {
      KeyValues(Keys(), row)
    }

    /** The request that continues after a row. */
    function Following(row: Row): Request {
      req.(cursor := Verified(ShapeOf(env, col, req), Formatted(format, ValuesOf(row))))
    }

    function FieldAt(i: nat): Field
      requires i < |EffectiveSorts(col, req.sorts)|
    {
      FieldOf(col.fields, EffectiveSorts(col, req.sorts)[i].field)
    }

    function ReadBack(row: Row, i: nat): Option<Value>
      requires i < |EffectiveSorts(col, req.sorts)|
    {
      env.coerce(FieldAt(i).ftype, format(Column(row, FieldAt(i).column)))
    }

    /** The row's sort values that are not null read back as themselves. */
    predicate Legible(row: Row) {
      forall i {:trigger ReadBack(row, i)} :: 0 <= i < |EffectiveSorts(col, req.sorts)| ==>
        var v := Column(row, FieldAt(i).column); v.Null? || ReadBack(row, i) == Some(v)
    }
  }

  /** all is the whole listing, without cursors, of what v asks for. */
  ghost predicate Whole(v: View, table: set<Row>, all: seq<Row>) {
    && Setting(v.env, v.col, table) && Accepts(v.env, v.col, v.req) && v.req.cursor.NoCursor?
    && IsListing(v.env.sem, table, CompiledOf(v.env, v.col, v.req), all)
    && forall r :: r in all ==> v.Legible(r)
  }

  /** A request the client may come to make. */
  ghost predicate Asks(v: View, all: seq<Row>, next: Request) {
    next == v.req || exists row :: row in all && next == v.Following(row)
  }

  // ---------------------------------------------------------------- what a cursor reads as

  /** A page's cursor is taken back exactly if every sort value in it can be read again. */
  lemma CursorTakenExactlyWhen(v: View, row: Row)
    requires Accepts(v.env, v.col, v.req)
    ensures Accepts(v.env, v.col, v.Following(row)) <==>
              forall i :: 0 <= i < |EffectiveSorts(v.col, v.req.sorts)| ==> v.ReadBack(row, i).Some?
  {
    var next, sorts := v.Following(row), EffectiveSorts(v.col, v.req.sorts);
    var values := CursorValues(v.env, v.col.fields, sorts, next.cursor.sortValues);
    forall i | 0 <= i < |sorts| ensures values[i] == v.ReadBack(row, i) {
      assert v.ValuesOf(row)[i] == Column(row, v.FieldAt(i).column);
    }
    assert Valid(v.env, v.col, next);
    assert ClausesCompile(v.env, v.col, next) <==> AllCoerced(values);
  }

  lemma CursorReads(v: View, row: Row, i: nat)
    requires Accepts(v.env, v.col, v.Following(row)) && i < |EffectiveSorts(v.col, v.req.sorts)|
    ensures v.ReadBack(row, i) == Some(After(v.env, v.col, v.Following(row))[i])
    ensures v.ValuesOf(row)[i] == Column(row, v.FieldAt(i).column)
  {
    var next, sorts := v.Following(row), EffectiveSorts(v.col, v.req.sorts);
    var values := CursorValues(v.env, v.col.fields, sorts, next.cursor.sortValues);
    assert values[i] == v.ReadBack(row, i);
  }

  lemma AfterNonNull(env: Env, col: Collection, next: Request)
    requires EnvOk(env) && CursorAccepted(env, col, next) && next.cursor.Verified?
    ensures NonNull(After(env, col, next))
  {
    var sorts, vs := EffectiveSorts(col, next.sorts), After(env, col, next);
    var values := CursorValues(env, col.fields, sorts, next.cursor.sortValues);
    forall i | 0 <= i < |vs| ensures !vs[i].Null? {
      assert values[i] == env.coerce(FieldOf(col.fields, sorts[i].field).ftype, next.cursor.sortValues[i]);
    }
  }

  /** The values it then stands for: the row's own, with something in place of each null. */
  lemma CursorFills(v: View, row: Row)
    requires EnvOk(v.env) && Accepts(v.env, v.col, v.Following(row)) && v.Legible(row)
    ensures Fills(After(v.env, v.col, v.Following(row)), v.ValuesOf(row))
  {
    AfterNonNull(v.env, v.col, v.Following(row));
    forall i | 0 <= i < |v.ValuesOf(row)| && !v.ValuesOf(row)[i].Null?
      ensures After(v.env, v.col, v.Following(row))[i] == v.ValuesOf(row)[i]
    {
      CursorReads(v, row, i);
    }
  }

  // ---------------------------------------------------------------- what a request lists

  /** Of the rows of the whole listing, those a request keeps. */
  ghost predicate KeptBy(v: View, next: Request, r: Row) {
    && Accepts(v.env, v.col, next)
    && (next.cursor.Verified? ==>
          Kept(v.env.sem, KeysFor(v.col, next), After(v.env, v.col, next), KeyValues(KeysFor(v.col, next), r)))
  }

  lemma KeepsMeans(v: View, table: set<Row>, all: seq<Row>, next: Request, r: Row)
    requires Whole(v, table, all) && Asks(v, all, next) && Accepts(v.env, v.col, next) && r in table
    ensures var c := CompiledOf(v.env, v.col, next);
            Keeps(v.env.sem, c.where, c.args, r) <==> r in all && KeptBy(v, next, r)
  {
    CompiledMeans(v.env, v.col, v.req, r);
    CompiledMeans(v.env, v.col, next, r);
  }

  ghost function Rest(v: View, next: Request, all: seq<Row>): seq<Row> {
    if all == [] then [] else
    var n := |all| - 1;
    Rest(v, next, all[..n]) + if KeptBy(v, next, all[n]) then [all[n]] else []
  }

  lemma {:induction false} RestHas(v: View, next: Request, all: seq<Row>, r: Row)
    ensures r in Rest(v, next, all) <==> r in all && KeptBy(v, next, r)
    decreases |all|
  {
    if all != [] {
      RestHas(v, next, all[..|all| - 1], r);
      assert all == all[..|all| - 1] + [all[|all| - 1]];
    }
  }

  lemma {:induction false} RestSorted(v: View, next: Request, all: seq<Row>)
    requires Sorted(v.env.sem, v.Keys(), all)
    ensures Sorted(v.env.sem, v.Keys(), Rest(v, next, all))
    decreases |all|
  {
    if all != [] {
      var n := |all| - 1;
      RestSorted(v, next, all[..n]);
      var before := Rest(v, next, all[..n]);
      forall i | 0 <= i < |before| ensures Before(v.env.sem, v.Keys(), v.ValuesOf(before[i]), v.ValuesOf(all[n])) {
        RestHas(v, next, all[..n], before[i]);
        var k :| 0 <= k < n && all[..n][k] == before[i];
      }
    }
  }

  /** The database can only list what is left of the whole listing. */
  lemma ListsRest(v: View, table: set<Row>, all: seq<Row>, next: Request, rest: seq<Row>)
    requires Whole(v, table, all) && Asks(v, all, next) && Accepts(v.env, v.col, next)
    requires IsListing(v.env.sem, table, CompiledOf(v.env, v.col, next), rest)
    ensures rest == Rest(v, next, all)
  {
    RestSorted(v, next, all);
    forall r ensures r in rest <==> r in Rest(v, next, all) {
      RestHas(v, next, all, r);
      if r in table { KeepsMeans(v, table, all, next, r); }
    }
    assert SameElements(rest, Rest(v, next, all));
    ListingUnique(v.env.sem, v.Keys(), rest, Rest(v, next, all));
  }

  // ---------------------------------------------------------------- where a page may end

  ghost predicate LosesAfter(v: View, all: seq<Row>, i: int)
    requires 0 < i <= |all|
  {
    exists k :: i <= k < |all| && !KeptBy(v, v.Following(all[i - 1]), all[k])
  }

  ghost predicate RepeatsAfter(v: View, all: seq<Row>, i: int)
    requires 0 < i <= |all|
  {
    exists k :: 0 <= k < i && KeptBy(v, v.Following(all[i - 1]), all[k])
  }

  /** A page can end before row i: its cursor is taken back, keeps every later row and no earlier one. */
  ghost predicate Seamless(v: View, all: seq<Row>, i: int) {
    0 < i <= |all| ==>
      Accepts(v.env, v.col, v.Following(all[i - 1])) && !LosesAfter(v, all, i) && !RepeatsAfter(v, all, i)
  }

  lemma SortedApart(sem: Semantics, keys: seq<Key>, all: seq<Row>, i: nat, j: nat)
    requires StrictOrder(sem.less) && Sorted(sem, keys, all) && i < |all| && j < |all| && all[i] == all[j]
    ensures i == j
  {
    BeforeIrreflexive(sem, keys, KeyValues(keys, all[i]));
  }

  lemma SuffixHas(sem: Semantics, keys: seq<Key>, all: seq<Row>, i: nat, k: nat)
    requires StrictOrder(sem.less) && Sorted(sem, keys, all) && i <= |all| && k < |all|
    ensures all[k] in all[i..] <==> i <= k
  {
    if i <= k { assert all[i..][k - i] == all[k]; }
    if j :| 0 <= j < |all[i..]| && all[i..][j] == all[k] {
      SortedApart(sem, keys, all, i + j, k);
    }
  }

  lemma SuffixRest(v: View, all: seq<Row>, next: Request, i: nat)
    requires StrictOrder(v.env.sem.less) && Sorted(v.env.sem, v.Keys(), all) && i <= |all|
    requires forall k :: 0 <= k < |all| ==> (KeptBy(v, next, all[k]) <==> i <= k)
    ensures Rest(v, next, all) == all[i..]
  {
    RestSorted(v, next, all);
    forall r ensures r in Rest(v, next, all) <==> r in all[i..] {
      RestHas(v, next, all, r);
      if r in all {
        var k :| 0 <= k < |all| && all[k] == r;
        SuffixHas(v.env.sem, v.Keys(), all, i, k);
      }
    }
    ListingUnique(v.env.sem, v.Keys(), Rest(v, next, all), all[i..]);
  }

  lemma RestSuffix(v: View, all: seq<Row>, next: Request, i: nat, k: nat)
    requires StrictOrder(v.env.sem.less) && Sorted(v.env.sem, v.Keys(), all) && i <= |all| && k < |all|
    requires Rest(v, next, all) == all[i..]
    ensures KeptBy(v, next, all[k]) <==> i <= k
  {
    RestHas(v, next, all, all[k]);
    SuffixHas(v.env.sem, v.Keys(), all, i, k);
  }

  /** A query continued after a row whose cursor is taken back lists the whole rest exactly there. */
  lemma RestListedExactlyWhen(v: View, table: set<Row>, all: seq<Row>, i: nat, rest: seq<Row>)
    requires Whole(v, table, all) && 0 < i <= |all| && Accepts(v.env, v.col, v.Following(all[i - 1]))
    requires IsListing(v.env.sem, table, CompiledOf(v.env, v.col, v.Following(all[i - 1])), rest)
    ensures rest == all[i..] <==> !LosesAfter(v, all, i) && !RepeatsAfter(v, all, i)
  {
    var next := v.Following(all[i - 1]);
    assert all[i - 1] in all;
    ListsRest(v, table, all, next, rest);
    if !LosesAfter(v, all, i) && !RepeatsAfter(v, all, i) {
      SuffixRest(v, all, next, i);
    }
    if rest == all[i..] {
      forall k | 0 <= k < |all| ensures KeptBy(v, next, all[k]) <==> i <= k {
        RestSuffix(v, all, next, i, k);
      }
    }
  }

  /** With sort values that are never null a page can end anywhere. */
  lemma NonNullIsSeamless(v: View, table: set<Row>, all: seq<Row>, i: int)
    requires Whole(v, table, all) && forall r :: r in all ==> NonNull(v.ValuesOf(r))
    ensures Seamless(v, all, i)
  {
    if 0 < i <= |all| {
      var last, sem := all[i - 1], v.env.sem;
      assert last in all;
      forall j | 0 <= j < |EffectiveSorts(v.col, v.req.sorts)| ensures v.ReadBack(last, j).Some? {
        assert !v.ValuesOf(last)[j].Null?;
      }
      CursorTakenExactlyWhen(v, last);
      CursorFills(v, last);
      var vs := After(v.env, v.col, v.Following(last));
      assert vs == v.ValuesOf(last);
      forall k | 0 <= k < |all| ensures KeptBy(v, v.Following(last), all[k]) <==> i <= k {
        assert all[k] in all;
        assert !CutByNull(vs, v.ValuesOf(all[k]));
        BeforeIrreflexive(sem, v.Keys(), v.ValuesOf(all[k]));
        if k < i - 1 && Before(sem, v.Keys(), vs, v.ValuesOf(all[k])) {
          BeforeTransitive(sem, v.Keys(), v.ValuesOf(all[k]), vs, v.ValuesOf(all[k]));
        }
      }
    }
  }

  /**
    After a page that ends on a null in the first sort column, a cursor that is
    taken back starts again: it keeps earlier rows past what the null reads as,
    and loses every other row that is null there.
   */
  lemma NullEndRestarts(v: View, last: Row, r: Row)
    requires EnvOk(v.env) && StrictOrder(v.env.sem.less) && Accepts(v.env, v.col, v.Following(last))
    requires v.Keys() != [] && v.ValuesOf(last)[0].Null?
    ensures v.ReadBack(last, 0).Some?
    ensures var x, y := v.ReadBack(last, 0).value, v.ValuesOf(r)[0];
            && (!y.Null? ==> Before(v.env.sem, v.Keys(), v.ValuesOf(r), v.ValuesOf(last)))
            && (!y.Null? && Precedes(v.env.sem, v.Keys()[0], x, y) ==> KeptBy(v, v.Following(last), r))
            && (y.Null? ==> !KeptBy(v, v.Following(last), r))
  {
    var next := v.Following(last);
    var vs, ys := After(v.env, v.col, next), v.ValuesOf(r);
    CursorReads(v, last, 0);
    AfterNonNull(v.env, v.col, next);
    assert !vs[0].Null?;
    KeptSplits(v.env.sem, v.Keys(), vs, ys);
    if !ys[0].Null? && Precedes(v.env.sem, v.Keys()[0], vs[0], ys[0]) {
      assert KeptAt(v.env.sem, v.Keys(), vs, ys, 0);
    }
    if ys[0].Null? { assert NullAt(vs, ys, 0); }
  }

  // ---------------------------------------------------------------- cursors advance

  /** From the cursor of a row it kept, a request keeps fewer rows: not that one, and none it did not keep before. */
  lemma KeepsFewer(v: View, table: set<Row>, all: seq<Row>, next: Request, last: Row, r: Row)
    requires Whole(v, table, all) && Asks(v, all, next) && last in all && KeptBy(v, next, last)
    ensures KeptBy(v, v.Following(last), r) ==> KeptBy(v, next, r)
    ensures !KeptBy(v, v.Following(last), last)
  {
    var further := v.Following(last);
    if Accepts(v.env, v.col, further) {
      var filled := After(v.env, v.col, further);
      CursorFills(v, last);
      FilledDrops(v.env.sem, v.Keys(), v.ValuesOf(last), filled);
      if next.cursor.Verified? && KeptBy(v, further, r) {
        var values := After(v.env, v.col, next);
        AfterNonNull(v.env, v.col, next);
        FilledAdvances(v.env.sem, v.Keys(), values, v.ValuesOf(last), filled);
        KeptShrinks(v.env.sem, v.Keys(), values, filled, v.ValuesOf(r));
      }
    }
  }

  lemma {:induction false} FewerLeft(v: View, all: seq<Row>, next: Request, further: Request, last: Row)
    requires forall r :: r in all && KeptBy(v, further, r) ==> KeptBy(v, next, r)
    ensures |Rest(v, further, all)| <= |Rest(v, next, all)|
    ensures last in all && KeptBy(v, next, last) && !KeptBy(v, further, last) ==>
              |Rest(v, further, all)| < |Rest(v, next, all)|
    decreases |all|
  {
    if all != [] {
      assert all == all[..|all| - 1] + [all[|all| - 1]];
      FewerLeft(v, all[..|all| - 1], next, further, last);
    }
  }

  // ---------------------------------------------------------------- a client that follows its cursors

  ghost predicate IsPage(v: View, rest: seq<Row>, page: Page) {
    var n := LimitOf(v.req);
    && page.rows == rest[..Min(n, |rest|)] && (page.hasMore <==> |rest| > n)
    && (page.hasMore ==> v.req.(cursor := page.next) == v.Following(rest[n - 1]))
  }

  method NextPage(v: View, ghost table: set<Row>, db: Compiled -> seq<Row>, ghost all: seq<Row>, next: Request)
    returns (r: Option<Page>)
    requires Whole(v, table, all) && Asks(v, all, next) && Database(v.env.sem, table, v.Keys(), db)
    ensures r.Some? <==> Accepts(v.env, v.col, next)
    ensures r.Some? ==> IsPage(v, Rest(v, next, all), r.value)
  {
    r := List(v.env, v.format, v.col, next, db);
    if r.Some? { AnswerIsPage(v, table, db, all, next); }
  }

  lemma PageOfRest(v: View, c: Compiled, rest: seq<Row>)
    requires c.limit == LimitOf(v.req) && c.keys == v.Keys() && c.shape == ShapeOf(v.env, v.col, v.req)
    ensures IsPage(v, rest, PageOf(v.format, c, rest[..Min(c.limit + 1, |rest|)]))
  {
  }

  lemma AnswerIsPage(v: View, table: set<Row>, db: Compiled -> seq<Row>, all: seq<Row>, next: Request)
    requires Whole(v, table, all) && Asks(v, all, next) && Database(v.env.sem, table, v.Keys(), db)
    requires Accepts(v.env, v.col, next)
    ensures var c := CompiledOf(v.env, v.col, next); IsPage(v, Rest(v, next, all), PageOf(v.format, c, db(c)))
  {
    var c, rest := CompiledOf(v.env, v.col, next), Rest(v, next, all);
    assert Answers(v.env.sem, table, c, db(c));
    var listed :| IsListing(v.env.sem, table, c, listed) && db(c) == listed[..Min(c.limit + 1, |listed|)];
    ListsRest(v, table, all, next, listed);
    PageOfRest(v, c, rest);
  }

  /** Pages end after each full limit of rows. */
  predicate PageEnds(limit: nat, i: int) {
    i == 0 || (0 < limit <= i && PageEnds(limit, i - limit))
  }

  lemma {:induction false} PageEndsApart(limit: nat, i: int, j: int)
    requires limit > 0 && PageEnds(limit, i) && PageEnds(limit, j) && 0 <= i < j
    ensures i + limit <= j
    decreases j
  {
    if i > 0 { PageEndsApart(limit, i - limit, j - limit); }
  }

  /** Every page of the whole listing ends where a page can end. */
  ghost predicate SeamlessPages(v: View, all: seq<Row>) {
    SeamlessBelow(v, all, |all|)
  }

  ghost predicate SeamlessBelow(v: View, all: seq<Row>, n: int) {
    forall i {:trigger Seamless(v, all, i)} :: 0 <= i < n && PageEnds(LimitOf(v.req), i) ==> Seamless(v, all, i)
  }

  lemma SeamlessTo(v: View, all: seq<Row>, i: int, n: int)
    requires SeamlessBelow(v, all, i) && PageEnds(LimitOf(v.req), i) && 0 <= i && n <= i + LimitOf(v.req)
    requires Seamless(v, all, i)
    ensures SeamlessBelow(v, all, n)
  {
    forall j | 0 <= j < n && PageEnds(LimitOf(v.req), j) ensures Seamless(v, all, j) {
      if j > i { PageEndsApart(LimitOf(v.req), i, j); }
    }
  }

  /** All pages so far have ended well: the client has the first rows of the listing. */
  ghost predicate OnTrack(v: View, all: seq<Row>, out: seq<Row>, next: Request) {
    && out <= all && (out == [] || |out| < |all|) && PageEnds(LimitOf(v.req), |out|)
    && next == (if out == [] then v.req else v.Following(out[|out| - 1]))
    && SeamlessBelow(v, all, |out|)
  }

  /** The client has got a wrong row, or has missed one it will not get any more. */
  ghost predicate Spoiled(v: View, all: seq<Row>, out: seq<Row>, next: Request) {
    !(out <= all) || exists r :: r in all && r !in out && !KeptBy(v, next, r)
  }

  lemma SeamlessRest(v: View, table: set<Row>, all: seq<Row>, out: seq<Row>, next: Request)
    requires Whole(v, table, all) && OnTrack(v, all, out, next) && Seamless(v, all, |out|)
    ensures Rest(v, next, all) == all[|out|..]
  {
    SuffixRest(v, all, next, |out|);
  }

  lemma NextEnd(limit: nat, i: nat)
    requires limit > 0 && PageEnds(limit, i)
    ensures PageEnds(limit, i + limit)
  {
    assert i + limit - limit == i;
  }

  lemma Longer(all: seq<Row>, out: seq<Row>, rows: seq<Row>, n: nat)
    requires out <= all && 0 < n < |all| - |out| && rows == all[|out|..][..n]
    ensures out + rows <= all && |out + rows| == |out| + n && (out + rows)[|out| + n - 1] == all[|out|..][n - 1]
  {
    assert out + rows == all[..|out| + n];
  }

  lemma TrackAdvances(v: View, all: seq<Row>, out: seq<Row>, next: Request, page: Page)
    requires OnTrack(v, all, out, next) && Seamless(v, all, |out|)
    requires IsPage(v, all[|out|..], page) && page.hasMore
    ensures OnTrack(v, all, out + page.rows, v.req.(cursor := page.next))
  {
    var i, n := |out|, LimitOf(v.req);
    Longer(all, out, page.rows, n);
    SeamlessTo(v, all, i, i + n);
    NextEnd(n, i);
  }

  /** From a good end the next page leads to a good place, or to the end of the listing. */
  lemma TrackGoesOn(v: View, table: set<Row>, all: seq<Row>, out: seq<Row>, next: Request, page: Page)
    requires Whole(v, table, all) && OnTrack(v, all, out, next) && Seamless(v, all, |out|)
    requires IsPage(v, Rest(v, next, all), page)
    ensures page.hasMore ==> OnTrack(v, all, out + page.rows, v.req.(cursor := page.next))
    ensures !page.hasMore ==> out + page.rows == all && SeamlessPages(v, all)
  {
    SeamlessRest(v, table, all, out, next);
    if page.hasMore {
      TrackAdvances(v, all, out, next, page);
    } else {
      SeamlessTo(v, all, |out|, |all|);
      assert out + page.rows == all;
    }
  }

  /** What a page brings is in the listing, is kept by its request, and only its last row makes the next one. */
  lemma PageRows(v: View, table: set<Row>, all: seq<Row>, next: Request, page: Page)
    requires Whole(v, table, all) && Asks(v, all, next) && IsPage(v, Rest(v, next, all), page)
    ensures forall r :: r in page.rows ==> r in all && KeptBy(v, next, r)
    ensures var further := v.req.(cursor := page.next);
            page.hasMore ==>
              && Asks(v, all, further) && |Rest(v, further, all)| < |Rest(v, next, all)|
              && forall r :: KeptBy(v, further, r) ==> KeptBy(v, next, r)
  {
    var rest, further := Rest(v, next, all), v.req.(cursor := page.next);
    forall r | r in page.rows ensures r in all && KeptBy(v, next, r) {
      assert r in rest;
      RestHas(v, next, all, r);
    }
    if page.hasMore {
      var last := rest[LimitOf(v.req) - 1];
      assert last in rest;
      RestHas(v, next, all, last);
      forall r ensures KeptBy(v, further, r) ==> KeptBy(v, next, r) {
        KeepsFewer(v, table, all, next, last, r);
      }
      KeepsFewer(v, table, all, next, last, last);
      FewerLeft(v, all, next, further, last);
    }
  }

  /** A missed row stays missed. */
  lemma SpoiledStays(v: View, table: set<Row>, all: seq<Row>, out: seq<Row>, next: Request, page: Page)
    requires Whole(v, table, all) && Asks(v, all, next) && IsPage(v, Rest(v, next, all), page)
    requires Spoiled(v, all, out, next)
    ensures out + page.rows != all
    ensures page.hasMore ==> Spoiled(v, all, out + page.rows, v.req.(cursor := page.next))
  {
    PageRows(v, table, all, next, page);
    if out <= all {
      var r :| r in all && r !in out && !KeptBy(v, next, r);
      assert r !in out + page.rows;
    }
  }

  /** A listing that has an earlier row begins with one. */
  lemma BeginsEarlier(sem: Semantics, keys: seq<Key>, all: seq<Row>, rest: seq<Row>, k: nat, i: nat)
    requires StrictOrder(sem.less) && Sorted(sem, keys, all) && Sorted(sem, keys, rest)
    requires k < i < |all| && all[k] in rest
    ensures rest[0] != all[i]
  {
    var j :| 0 <= j < |rest| && rest[j] == all[k];
    assert Before(sem, keys, KeyValues(keys, all[k]), KeyValues(keys, all[i]));
    BeforeIrreflexive(sem, keys, KeyValues(keys, all[i]));
    if j > 0 && rest[0] == all[i] {
      BeforeTransitive(sem, keys, KeyValues(keys, all[i]), KeyValues(keys, all[k]), KeyValues(keys, all[i]));
    }
  }

  lemma RestBeginsEarlier(v: View, table: set<Row>, all: seq<Row>, next: Request, k: nat, i: nat)
    requires Whole(v, table, all) && k < i < |all| && KeptBy(v, next, all[k])
    ensures Rest(v, next, all) != [] && Rest(v, next, all)[0] != all[i]
  {
    RestHas(v, next, all, all[k]);
    RestSorted(v, next, all);
    BeginsEarlier(v.env.sem, v.Keys(), all, Rest(v, next, all), k, i);
  }

  lemma WrongRow(all: seq<Row>, out: seq<Row>, rows: seq<Row>)
    requires |out| < |all| && rows != [] && rows[0] != all[|out|]
    ensures !(out + rows <= all)
  {
    assert (out + rows)[|out|] == rows[0];
  }

  lemma FirstRepeats(v: View, table: set<Row>, all: seq<Row>, out: seq<Row>, next: Request, page: Page)
    requires Whole(v, table, all) && 0 < |out| < |all| && next == v.Following(all[|out| - 1])
    requires RepeatsAfter(v, all, |out|) && IsPage(v, Rest(v, next, all), page)
    ensures !(out + page.rows <= all)
  {
    var k :| 0 <= k < |out| && KeptBy(v, next, all[k]);
    RestBeginsEarlier(v, table, all, next, k, |out|);
    WrongRow(all, out, page.rows);
  }

  /** From a bad end it does not: a later row is lost for good, or the next page begins with an earlier row. */
  lemma TrackIsLost(v: View, table: set<Row>, all: seq<Row>, out: seq<Row>, next: Request, page: Page)
    requires Whole(v, table, all) && OnTrack(v, all, out, next) && !Seamless(v, all, |out|)
    requires Asks(v, all, next) && Accepts(v.env, v.col, next) && IsPage(v, Rest(v, next, all), page)
    ensures !SeamlessPages(v, all) && out + page.rows != all
    ensures page.hasMore ==> Spoiled(v, all, out + page.rows, v.req.(cursor := page.next))
  {
    var i := |out|;
    assert out[i - 1] == all[i - 1];
    if LosesAfter(v, all, i) {
      var k :| i <= k < |all| && !KeptBy(v, next, all[k]);
      if all[k] in out {
        var j :| 0 <= j < |out| && out[j] == all[k];
        SortedApart(v.env.sem, v.Keys(), all, j, k);
      }
      assert all[k] in all;
      SpoiledStays(v, table, all, out, next, page);
    } else {
      FirstRepeats(v, table, all, out, next, page);
    }
  }

  /** Where a client stands; on says that all its pages have ended well so far. */
  ghost predicate Standing(v: View, all: seq<Row>, out: seq<Row>, next: Request, on: bool) {
    && Asks(v, all, next) && (forall r :: r in out ==> r in all)
    && if on then OnTrack(v, all, out, next) else !SeamlessPages(v, all) && Spoiled(v, all, out, next)
  }

  lemma Moves(v: View, table: set<Row>, all: seq<Row>, out: seq<Row>, next: Request, on: bool, page: Page)
    returns (still: bool)
    requires Whole(v, table, all) && Standing(v, all, out, next, on)
    requires Accepts(v.env, v.col, next) && IsPage(v, Rest(v, next, all), page)
    ensures forall r :: r in out + page.rows ==> r in all
    ensures !page.hasMore ==> (out + page.rows == all <==> SeamlessPages(v, all))
    ensures page.hasMore ==>
              && Standing(v, all, out + page.rows, v.req.(cursor := page.next), still)
              && |Rest(v, v.req.(cursor := page.next), all)| < |Rest(v, next, all)|
  {
    still := on && Seamless(v, all, |out|);
    PageRows(v, table, all, next, page);
    if !on {
      SpoiledStays(v, table, all, out, next, page);
    } else if still {
      TrackGoesOn(v, table, all, out, next, page);
    } else {
      TrackIsLost(v, table, all, out, next, page);
    }
  }

  /** A cursor that is refused ends a page badly. */
  lemma RefusedIsBad(v: View, table: set<Row>, all: seq<Row>, out: seq<Row>, next: Request, on: bool)
    requires Whole(v, table, all) && Standing(v, all, out, next, on) && !Accepts(v.env, v.col, next)
    ensures !SeamlessPages(v, all)
  {
    if on {
      assert out[|out| - 1] == all[|out| - 1];
      assert !Seamless(v, all, |out|);
    }
  }

  /**
    Following cursors always ends, whatever nulls the table has.  It yields the
    whole listing, without a skip or a repeat, if and only if every page ends
    where a page can end; ok says that no cursor was refused on the way.
   */
  method ListAll(v: View, ghost table: set<Row>, db: Compiled -> seq<Row>, ghost all: seq<Row>)
    returns (ok: bool, out: seq<Row>)
    requires Whole(v, table, all) && Database(v.env.sem, table, v.Keys(), db)
    ensures ok && out == all <==> SeamlessPages(v, all)
    ensures forall r :: r in out ==> r in all
  {
    out := [];
    var next := v.req;
    ghost var on := true;
    while true
      invariant Standing(v, all, out, next, on)
      decreases |Rest(v, next, all)|
    {
      var r := NextPage(v, table, db, all, next);
      if r.None? {
        RefusedIsBad(v, table, all, out, next, on);
        return false, out;
      }
      on := Moves(v, table, all, out, next, on, r.value);
      out := out + r.value.rows;
      if !r.value.hasMore { return true, out; }
      next := v.req.(cursor := r.value.next);
    }
  }
}

/**
  Compilation of a list request into clauses and arguments, and the proof that
  the clauses, evaluated under the final argument list, mean the request.
 */
module QueryCompile {
  import opened Options
  import opened Sql
  import opened Keyset
  import opened Query
  import Like

  /** Clauses so far and the arguments their placeholders refer to. */
  datatype Plan = Plan(where: seq<Clause>, args: seq<Value>)

  predicate PlanOk(p: Plan) {
    forall i :: 0 <= i < |p.where| ==> Placed(p.where[i], |p.args|)
  }

  function Add(p: Plan, clause: Clause, args: seq<Value>): Plan {
    Plan(p.where + [clause], p.args + args)
  }

  /** Appending a clause with its arguments adds its meaning and disturbs no earlier clause. */
  lemma AddMeans(sem: Semantics, p: Plan, clause: Clause, args: seq<Value>, row: Row)
    requires PlanOk(p) && Placed(clause, |p.args + args|)
    ensures PlanOk(Add(p, clause, args))
    ensures Keeps(sem, Add(p, clause, args).where, p.args + args, row) <==>
              Keeps(sem, p.where, p.args, row) && Eval(sem, clause, row, p.args + args).True?
  {
    var q := Add(p, clause, args);
    forall i | 0 <= i < |p.where|
      ensures q.where[i] == p.where[i] && Placed(q.where[i], |q.args|)
              && Eval(sem, q.where[i], row, q.args) == Eval(sem, p.where[i], row, p.args)
    {
      ClauseStable(sem, p.where[i], row, p.args, q.args);
    }
    assert q.where[|p.where|] == clause;
  }

  // ---------------------------------------------------------------- filters

  predicate Coercible(env: Env, t: FieldType, values: seq<string>) {
    forall i :: 0 <= i < |values| ==> env.coerce(t, values[i]).Some?
  }

  function CoerceAll(env: Env, t: FieldType, values: seq<string>): (r: seq<Value>)
    requires Coercible(env, t, values)
    ensures |r| == |values|
  {
    seq(|values|, i requires 0 <= i < |values| => env.coerce(t, values[i]).value)
  }

  function Numbers(start: nat, n: nat): (r: seq<nat>)
    ensures |r| == n
  {
    seq(n, i requires 0 <= i < n => start + i)
  }

  function OpOf(op: Op): CompareOp {
    match op
    case OpNe => Ne
    case OpLt => Lt
    case OpLte => Lte
    case OpGt => Gt
    case OpGte => Gte
    case _ => Eq
  }

  function FilterAtom(f: Field, fl: Filter, start: nat): Atom {
    match fl.op
    case OpIsNull => IsNull(f.column)
    case OpIsNotNull => IsNotNull(f.column)
    case OpIn => InList(f.column, Numbers(start, |fl.values|), false)
    case OpNotIn => InList(f.column, Numbers(start, |fl.values|), true)
    case OpContains => ILike(f.column, start)
    case OpPrefix => ILike(f.column, start)
    case _ => Compare(f.column, OpOf(fl.op), start)
  }

  predicate FilterCompiles(env: Env, f: Field, fl: Filter) {
    match fl.op
    case OpIn => Coercible(env, f.ftype, fl.values)
    case OpNotIn => Coercible(env, f.ftype, fl.values)
    case OpIsNull => true
    case OpIsNotNull => true
    case OpContains => true
    case OpPrefix => true
    case _ => env.coerce(f.ftype, fl.value).Some?
  }

  function FilterArgs(env: Env, f: Field, fl: Filter): seq<Value>
    requires FilterCompiles(env, f, fl)
  {
    match fl.op
    case OpIsNull => []
    case OpIsNotNull => []
    case OpIn => CoerceAll(env, f.ftype, fl.values)
    case OpNotIn => CoerceAll(env, f.ftype, fl.values)
    case OpContains => [Text("%" + Like.EscapeLike(fl.value) + "%")]
    case OpPrefix => [Text(Like.EscapeLike(fl.value) + "%")]
    case _ => [env.coerce(f.ftype, fl.value).value]
  }

  method CompileFilter(env: Env, f: Field, fl: Filter, argStart: nat)
    returns (ok: bool, atom: Atom, args: seq<Value>)
    ensures ok <==> FilterCompiles(env, f, fl)
    ensures ok ==> atom == FilterAtom(f, fl, argStart) && args == FilterArgs(env, f, fl)
  {
    ok, atom, args := true, IsNull(f.column), [];
    if fl.op.OpIsNull? { return; }
    if fl.op.OpIsNotNull? { return true, IsNotNull(f.column), []; }
    if fl.op.OpIn? || fl.op.OpNotIn? {
      var placeholders;
      ok, placeholders, args := CompileValues(env, f, fl.values, argStart);
      atom := InList(f.column, placeholders, fl.op.OpNotIn?);
    } else if fl.op.OpContains? {
      atom, args := ILike(f.column, argStart), [Text("%" + Like.EscapeLike(fl.value) + "%")];
    } else if fl.op.OpPrefix? {
      atom, args := ILike(f.column, argStart), [Text(Like.EscapeLike(fl.value) + "%")];
    } else {
      var cv := env.coerce(f.ftype, fl.value);
      if cv.None? { return false, atom, []; }
      atom, args := Compare(f.column, OpOf(fl.op), argStart), [cv.value];
    }
  }

  /** A placeholder and a coerced argument per listed value. */
  method CompileValues(env: Env, f: Field, values: seq<string>, argStart: nat)
    returns (ok: bool, placeholders: seq<nat>, args: seq<Value>)
    ensures ok <==> Coercible(env, f.ftype, values)
    ensures ok ==> placeholders == Numbers(argStart, |values|) && args == CoerceAll(env, f.ftype, values)
  {
    placeholders, args := [], [];
    var i := 0;
    while i < |values|
      invariant i <= |values| && Coercible(env, f.ftype, values[..i])
      invariant args == CoerceAll(env, f.ftype, values[..i]) && placeholders == Numbers(argStart, i)
    {
      var cv := env.coerce(f.ftype, values[i]);
      if cv.None? { return false, [], []; }
      args, placeholders := args + [cv.value], placeholders + [argStart + i];
      i := i + 1;
    }
    assert values[..i] == values;
    ok := true;
  }

  lemma InMeans(env: Env, f: Field, fl: Filter, before: seq<Value>, row: Row)
    requires EnvOk(env) && (fl.op.OpIn? || fl.op.OpNotIn?) && Coercible(env, f.ftype, fl.values) && fl.values != []
    ensures var args := before + CoerceAll(env, f.ftype, fl.values);
            var ns := Numbers(|before| + 1, |fl.values|);
            var v := Column(row, f.column);
            && (v.Null? ==> Membership(env.sem, v, ns, args).Unknown?)
            && (!v.Null? ==> Membership(env.sem, v, ns, args) == Lift(OneOf(env, f.ftype, fl.values, v)))
  {
    var args := before + CoerceAll(env, f.ftype, fl.values);
    var ns := Numbers(|before| + 1, |fl.values|);
    var v := Column(row, f.column);
    forall i | 0 <= i < |ns| ensures Some(ArgAt(args, ns[i])) == env.coerce(f.ftype, fl.values[i]) {
      assert args[|before| + i] == CoerceAll(env, f.ftype, fl.values)[i];
    }
    MembershipOf(env.sem, v, ns, args);
    if i :| 0 <= i < |ns| && ArgAt(args, ns[i]) == v {
      assert env.coerce(f.ftype, fl.values[i]) == Some(v);
    }
    if i :| 0 <= i < |fl.values| && env.coerce(f.ftype, fl.values[i]) == Some(v) {
      assert ArgAt(args, ns[i]) == v;
    }
  }

  /** A compiled filter is true exactly on the rows the filter holds for, and its placeholders are its own. */
  lemma FilterMeans(env: Env, f: Field, fl: Filter, before: seq<Value>, row: Row)
    requires EnvOk(env) && FilterCompiles(env, f, fl) && (fl.op.OpIn? || fl.op.OpNotIn? ==> fl.values != [])
    ensures var atom, args := FilterAtom(f, fl, |before| + 1), before + FilterArgs(env, f, fl);
            && AtomPlaced(atom, |args|)
            && (EvalAtom(env.sem, atom, row, args).True? <==> FilterHolds(env, f, fl, row))
  {
    var args := before + FilterArgs(env, f, fl);
    var v := Column(row, f.column);
    if fl.op.OpIn? || fl.op.OpNotIn? {
      InMeans(env, f, fl, before, row);
    } else if FilterArgs(env, f, fl) != [] {
      assert args[|before|] == FilterArgs(env, f, fl)[0];
      if fl.op.OpContains? {
        Like.ContainsIsExact(env.sem.fold, fl.value, env.sem.render(v));
      } else if fl.op.OpPrefix? {
        Like.PrefixIsExact(env.sem.fold, fl.value, env.sem.render(v));
      }
    }
  }

  predicate CompilesIn(env: Env, fields: seq<Field>, fl: Filter) {
    FilterCompiles(env, FieldOf(fields, fl.field), fl)
  }

  predicate HoldsIn(env: Env, fields: seq<Field>, fl: Filter, row: Row) {
    FilterHolds(env, FieldOf(fields, fl.field), fl, row)
  }

  predicate ListsIn(fl: Filter) { fl.op.OpIn? || fl.op.OpNotIn? ==> fl.values != [] }

  predicate FiltersCompile(env: Env, fields: seq<Field>, filters: seq<Filter>) {
    forall i {:trigger CompilesIn(env, fields, filters[i])} :: 0 <= i < |filters| ==>
      CompilesIn(env, fields, filters[i])
  }

  predicate AllFiltersHold(env: Env, fields: seq<Field>, filters: seq<Filter>, row: Row) {
    forall i {:trigger HoldsIn(env, fields, filters[i], row)} :: 0 <= i < |filters| ==>
      HoldsIn(env, fields, filters[i], row)
  }

  predicate NonEmptyLists(filters: seq<Filter>) {
    forall i {:trigger ListsIn(filters[i])} :: 0 <= i < |filters| ==> ListsIn(filters[i])
  }

  /** All filters but the last, and the last. */
  lemma FiltersSplit(env: Env, fields: seq<Field>, filters: seq<Filter>, row: Row)
    requires filters != []
    ensures var before, fl := filters[..|filters| - 1], filters[|filters| - 1];
            && (FiltersCompile(env, fields, filters) <==>
                  FiltersCompile(env, fields, before) && CompilesIn(env, fields, fl))
            && (AllFiltersHold(env, fields, filters, row) <==>
                  AllFiltersHold(env, fields, before, row) && HoldsIn(env, fields, fl, row))
            && (NonEmptyLists(filters) <==> NonEmptyLists(before) && ListsIn(fl))
  {
    var before, fl := filters[..|filters| - 1], filters[|filters| - 1];
    assert filters == before + [fl];
    assert forall i :: 0 <= i < |before| ==> CompilesIn(env, fields, filters[i]) == CompilesIn(env, fields, before[i]);
    assert forall i :: 0 <= i < |before| ==>
             HoldsIn(env, fields, filters[i], row) == HoldsIn(env, fields, before[i], row);
    assert forall i :: 0 <= i < |before| ==> ListsIn(filters[i]) == ListsIn(before[i]);
  }

  function AddFilter(env: Env, fields: seq<Field>, fl: Filter, p: Plan): Plan
    requires CompilesIn(env, fields, fl)
  {
    var f := FieldOf(fields, fl.field);
    Add(p, Single(FilterAtom(f, fl, |p.args| + 1)), FilterArgs(env, f, fl))
  }

  function AddFilters(env: Env, fields: seq<Field>, filters: seq<Filter>, p: Plan): Plan
    requires FiltersCompile(env, fields, filters)
    decreases |filters|
  {
    if filters == [] then p else
    FiltersSplit(env, fields, filters, map[]);
    AddFilter(env, fields, filters[|filters| - 1], AddFilters(env, fields, filters[..|filters| - 1], p))
  }

  lemma FilterAdds(env: Env, fields: seq<Field>, fl: Filter, p: Plan, row: Row)
    requires EnvOk(env) && CompilesIn(env, fields, fl) && ListsIn(fl) && PlanOk(p)
    ensures var q := AddFilter(env, fields, fl, p);
            && PlanOk(q)
            && (Keeps(env.sem, q.where, q.args, row) <==>
                  Keeps(env.sem, p.where, p.args, row) && HoldsIn(env, fields, fl, row))
  {
    var f := FieldOf(fields, fl.field);
    FilterMeans(env, f, fl, p.args, row);
    AddMeans(env.sem, p, Single(FilterAtom(f, fl, |p.args| + 1)), FilterArgs(env, f, fl), row);
  }

  lemma {:induction false} FiltersMean(env: Env, fields: seq<Field>, filters: seq<Filter>, p: Plan, row: Row)
    requires EnvOk(env) && FiltersCompile(env, fields, filters) && NonEmptyLists(filters) && PlanOk(p)
    ensures var q := AddFilters(env, fields, filters, p);
            && PlanOk(q)
            && (Keeps(env.sem, q.where, q.args, row) <==>
                  Keeps(env.sem, p.where, p.args, row) && AllFiltersHold(env, fields, filters, row))
    decreases |filters|
  {
    if filters != [] {
      var before, fl := filters[..|filters| - 1], filters[|filters| - 1];
      FiltersSplit(env, fields, filters, row);
      FiltersMean(env, fields, before, p, row);
      FilterAdds(env, fields, fl, AddFilters(env, fields, before, p), row);
    }
  }

  // ---------------------------------------------------------------- text search

  predicate Searched(f: Field) { f.searchable && (f.ftype.TypeString? || f.ftype.TypeJson?) }

  function SearchFields(fields: seq<Field>): seq<Field> {
    if fields == [] then [] else
    var r := SearchFields(fields[..|fields| - 1]);
    if Searched(fields[|fields| - 1]) then r + [fields[|fields| - 1]] else r
  }

  function SearchParts(searched: seq<Field>, start: nat): (r: seq<seq<Atom>>)
    ensures |r| == |searched|
  {
    seq(|searched|, i requires 0 <= i < |searched| => [ILike(searched[i].column, start + i)])
  }

  function SearchArgs(n: nat, q: string): (r: seq<Value>)
    ensures |r| == n
  {
    seq(n, i => Text("%" + Like.EscapeLike(q) + "%"))
  }

  method CompileSearch(fields: seq<Field>, q: string, argStart: nat) returns (parts: seq<seq<Atom>>, args: seq<Value>)
    ensures parts == SearchParts(SearchFields(fields), argStart) && args == SearchArgs(|SearchFields(fields)|, q)
  {
    parts, args := [], [];
    var i := 0;
    while i < |fields|
      invariant i <= |fields|
      invariant parts == SearchParts(SearchFields(fields[..i]), argStart) && args == SearchArgs(|parts|, q)
    {
      assert fields[..i + 1][..i] == fields[..i];
      if Searched(fields[i]) {
        args := args + [Text("%" + Like.EscapeLike(q) + "%")];
        parts := parts + [[ILike(fields[i].column, argStart + |args| - 1)]];
      }
      i := i + 1;
    }
    assert fields[..i] == fields;
  }

  lemma {:induction false} SearchFieldsExact(fields: seq<Field>, f: Field)
    ensures f in SearchFields(fields) <==> f in fields && Searched(f)
    decreases |fields|
  {
    if fields != [] {
      SearchFieldsExact(fields[..|fields| - 1], f);
      assert fields == fields[..|fields| - 1] + [fields[|fields| - 1]];
    }
  }

  lemma SearchPartMeans(env: Env, f: Field, n: nat, q: string, args: seq<Value>, row: Row)
    requires ArgAt(args, n) == Text("%" + Like.EscapeLike(q) + "%")
    ensures EvalAll(env.sem, [ILike(f.column, n)], row, args).True? <==>
              !Column(row, f.column).Null?
              && Like.Contains(env.sem.fold, env.sem.render(Column(row, f.column)), q)
  {
    var atoms := [ILike(f.column, n)];
    AllTrue(env.sem, atoms, row, args);
    assert atoms[0] == ILike(f.column, n);
    Like.ContainsIsExact(env.sem.fold, q, env.sem.render(Column(row, f.column)));
  }

  lemma SearchMeans(env: Env, fields: seq<Field>, q: string, before: seq<Value>, row: Row)
    ensures var searched := SearchFields(fields);
            var parts, args := SearchParts(searched, |before| + 1), before + SearchArgs(|searched|, q);
            && Placed(AnyOf(parts), |args|)
            && (EvalAny(env.sem, parts, row, args).True? <==> SearchHolds(env, fields, q, row))
  {
    var searched := SearchFields(fields);
    var parts, args := SearchParts(searched, |before| + 1), before + SearchArgs(|searched|, q);
    AnyTrue(env.sem, parts, row, args);
    forall i | 0 <= i < |searched|
      ensures EvalAll(env.sem, parts[i], row, args).True? <==>
                !Column(row, searched[i].column).Null?
                && Like.Contains(env.sem.fold, env.sem.render(Column(row, searched[i].column)), q)
    {
      assert args[|before| + i] == SearchArgs(|searched|, q)[i];
      SearchPartMeans(env, searched[i], |before| + 1 + i, q, args, row);
    }
    if i :| 0 <= i < |parts| && EvalAll(env.sem, parts[i], row, args).True? {
      SearchFieldsExact(fields, searched[i]);
      var k :| 0 <= k < |fields| && fields[k] == searched[i];
    }
    if k :| 0 <= k < |fields| && Searched(fields[k]) && !Column(row, fields[k].column).Null?
            && Like.Contains(env.sem.fold, env.sem.render(Column(row, fields[k].column)), q) {
      SearchFieldsExact(fields, fields[k]);
      var i :| 0 <= i < |searched| && searched[i] == fields[k];
      assert EvalAll(env.sem, parts[i], row, args).True?;
    }
  }

  // ---------------------------------------------------------------- the whole request

  /** A page's query: rows kept, their order, one row more than the limit. */
  datatype Compiled = Compiled(
    where: seq<Clause>, args: seq<Value>, limit: nat, keys: seq<Key>, sorts: seq<Sort>, shape: Shape)

  datatype Result = Ok(value: Compiled) | Err(error: Error)

  function LimitOf(req: Request): nat { if req.limit == 0 then DEFAULT_LIMIT else req.limit }

  function ShapeOf(env: Env, col: Collection, req: Request): Shape {
    Shape(col.name, env.trim(req.query), req.filters, EffectiveSorts(col, req.sorts))
  }

  /** The cursor's values, coerced to the types of the fields sorted by. */
  function CursorValues(env: Env, fields: seq<Field>, sorts: seq<Sort>, raw: seq<string>): (r: seq<Option<Value>>)
    requires |raw| == |sorts|
    ensures |r| == |sorts|
  {
    seq(|sorts|, i requires 0 <= i < |sorts| => env.coerce(FieldOf(fields, sorts[i].field).ftype, raw[i]))
  }

  predicate AllCoerced(values: seq<Option<Value>>) {
    forall i :: 0 <= i < |values| ==> values[i].Some?
  }

  /** The cursor is genuine, made for this query, and has a value per sort. */
  predicate CursorFits(env: Env, col: Collection, req: Request) {
    match req.cursor
    case NoCursor => true
    case Unverifiable => false
    case Verified(shape, raw) => shape == ShapeOf(env, col, req) && |raw| == |EffectiveSorts(col, req.sorts)|
  }

  predicate CursorAccepted(env: Env, col: Collection, req: Request) {
    var sorts := EffectiveSorts(col, req.sorts);
    match req.cursor
    case NoCursor => true
    case Unverifiable => false
    case Verified(shape, raw) =>
      && shape == ShapeOf(env, col, req) && |raw| == |sorts|
      && AllCoerced(CursorValues(env, col.fields, sorts, raw))
  }

  predicate ClausesCompile(env: Env, col: Collection, req: Request) {
    && (env.trim(req.query) != "" ==> SearchFields(col.fields) != [])
    && FiltersCompile(env, col.fields, req.filters)
    && CursorAccepted(env, col, req)
  }

  /** The requests compilation accepts. */
  predicate Accepts(env: Env, col: Collection, req: Request) {
    Valid(env, col, req) && EffectiveSorts(col, req.sorts) != [] && ClausesCompile(env, col, req)
  }

  function KeysFor(col: Collection, req: Request): seq<Key> {
    KeysOf(col.fields, EffectiveSorts(col, req.sorts))
  }

  ghost function After(env: Env, col: Collection, req: Request): (r: seq<Value>)
    requires CursorAccepted(env, col, req) && req.cursor.Verified?
    ensures |r| == |EffectiveSorts(col, req.sorts)|
  {
    var sorts := EffectiveSorts(col, req.sorts);
    Prefix(CursorValues(env, col.fields, sorts, req.cursor.sortValues), |sorts|)
  }

  ghost predicate AfterCursor(env: Env, col: Collection, req: Request, row: Row)
    requires CursorAccepted(env, col, req) && req.cursor.Verified?
  {
    Before(env.sem, KeysFor(col, req), After(env, col, req), KeyValues(KeysFor(col, req), row))
  }

  /** A row the cursor's predicate loses: it is null where it first differs from the cursor. */
  ghost predicate Skipped(env: Env, col: Collection, req: Request, row: Row)
    requires CursorAccepted(env, col, req)
  {
    req.cursor.Verified? && CutByNull(After(env, col, req), KeyValues(KeysFor(col, req), row))
  }

  /** The rows a request asks for, said without clauses or arguments. */
  ghost predicate RowMatches(env: Env, col: Collection, req: Request, row: Row)
    requires CursorAccepted(env, col, req)
  {
    && (env.trim(req.query) != "" ==> SearchHolds(env, col.fields, env.trim(req.query), row))
    && AllFiltersHold(env, col.fields, req.filters, row)
    && (req.cursor.Verified? ==> AfterCursor(env, col, req, row))
  }

  function AddSearch(fields: seq<Field>, q: string, p: Plan): Plan {
    if q == "" then p
    else Add(p, AnyOf(SearchParts(SearchFields(fields), |p.args| + 1)), SearchArgs(|SearchFields(fields)|, q))
  }

  ghost function AddCursor(env: Env, col: Collection, req: Request, p: Plan): Plan
    requires CursorAccepted(env, col, req)
  {
    if req.cursor.NoCursor? then p else
    var keys, values := KeysFor(col, req), After(env, col, req);
    Add(p, AnyOf(KeysetParts(keys, values, |keys|, |p.args| + 1)), KeysetArgs(values, |keys|))
  }

  ghost function PlanOf(env: Env, col: Collection, req: Request): Plan
    requires ClausesCompile(env, col, req)
  {
    var searched := AddSearch(col.fields, env.trim(req.query), Plan([], col.selectArgs));
    AddCursor(env, col, req, AddFilters(env, col.fields, req.filters, searched))
  }

  method CompileFilters(env: Env, fields: seq<Field>, filters: seq<Filter>, before: Plan) returns (ok: bool, p: Plan)
    ensures ok <==> FiltersCompile(env, fields, filters)
    ensures ok ==> p == AddFilters(env, fields, filters, before)
  {
    var byName := FieldsByName(fields);
    p := before;
    var i := 0;
    while i < |filters|
      invariant i <= |filters| && FiltersCompile(env, fields, filters[..i])
      invariant p == AddFilters(env, fields, filters[..i], before)
    {
      var fl := filters[i];
      var f := if fl.field in byName then byName[fl.field] else NO_FIELD;
      assert Lookup(fields, fl.field) == if fl.field in byName then Some(byName[fl.field]) else None;
      assert filters[..i + 1][..i] == filters[..i];
      FiltersSplit(env, fields, filters[..i + 1], map[]);
      var one, atom, args := CompileFilter(env, f, fl, |p.args| + 1);
      if !one {
        assert !CompilesIn(env, fields, filters[i]);
        return false, p;
      }
      p := Plan(p.where + [Single(atom)], p.args + args);
      i := i + 1;
    }
    assert filters[..i] == filters;
    ok := true;
  }

  function CursorError(env: Env, col: Collection, req: Request): Error {
    if req.cursor.Verified? && req.cursor.shape != ShapeOf(env, col, req) then CursorMismatch else BadCursor
  }

  function ClauseError(env: Env, col: Collection, req: Request): Error {
    if env.trim(req.query) != "" && SearchFields(col.fields) == [] then InvalidField
    else if !FiltersCompile(env, col.fields, req.filters) then BadValue
    else BadCursor
  }

  /**
    The error of a refused request: what validation reports, then a collection
    without an order, then the cursor, then search, filters and cursor values.
   */
  ghost predicate RefusedWith(env: Env, col: Collection, req: Request, e: Error) {
    if !Valid(env, col, req) then Reports(env, col, req, e)
    else if EffectiveSorts(col, req.sorts) == [] then e == InvalidSort
    else if !CursorFits(env, col, req) then e == CursorError(env, col, req)
    else e == ClauseError(env, col, req)
  }

  method CheckCursor(env: Env, col: Collection, req: Request, sorts: seq<Sort>) returns (err: Option<Error>)
    requires sorts == EffectiveSorts(col, req.sorts)
    ensures err == if CursorFits(env, col, req) then None else Some(CursorError(env, col, req))
  {
    match req.cursor {
      case NoCursor => err := None;
      case Unverifiable => err := Some(BadCursor);
      case Verified(shape, raw) =>
        if shape != ShapeOf(env, col, req) { return Some(CursorMismatch); }
        if |raw| != |sorts| { return Some(BadCursor); }
        err := None;
    }
  }

  method CompileCursor(env: Env, col: Collection, req: Request, sorts: seq<Sort>, before: Plan)
    returns (ok: bool, p: Plan)
    requires sorts == EffectiveSorts(col, req.sorts) && CursorFits(env, col, req)
    ensures ok <==> CursorAccepted(env, col, req)
    ensures ok ==> p == AddCursor(env, col, req, before)
  {
    ok, p := true, before;
    if req.cursor.Verified? {
      var values := CursorValues(env, col.fields, sorts, req.cursor.sortValues);
      var parts, args;
      ok, parts, args := KeysetPredicate(KeysOf(col.fields, sorts), values, |p.args| + 1);
      if ok { p := Plan(p.where + [AnyOf(parts)], p.args + args); }
    }
  }

  method CompileClauses(env: Env, col: Collection, req: Request, sorts: seq<Sort>) returns (err: Option<Error>, p: Plan)
    requires sorts == EffectiveSorts(col, req.sorts) && CursorFits(env, col, req)
    ensures err.None? <==> ClausesCompile(env, col, req)
    ensures err.None? ==> p == PlanOf(env, col, req)
    ensures err.Some? ==> err.value == ClauseError(env, col, req)
  {
    p := Plan([], col.selectArgs);
    var q := env.trim(req.query);
    if q != "" {
      var parts, args := CompileSearch(col.fields, q, |p.args| + 1);
      if |parts| == 0 { return Some(InvalidField), p; }
      p := Plan(p.where + [AnyOf(parts)], p.args + args);
    }
    assert p == AddSearch(col.fields, q, Plan([], col.selectArgs));
    var ok;
    ok, p := CompileFilters(env, col.fields, req.filters, p);
    if !ok { return Some(BadValue), p; }
    ok, p := CompileCursor(env, col, req, sorts, p);
    err := if ok then None else Some(BadCursor);
  }

  /** Accepted requests become a page's query; a refused one is refused with its first error. */
  method Compile(env: Env, col: Collection, req: Request) returns (r: Result)
    ensures r.Ok? <==> Accepts(env, col, req)
    ensures r.Ok? ==> r.value == CompiledOf(env, col, req)
    ensures r.Err? ==> RefusedWith(env, col, req, r.error)
  {
    var invalid := Validate(env, col, req);
    if invalid.Some? { return Err(invalid.value); }
    var limit := if req.limit == 0 then DEFAULT_LIMIT else req.limit;
    var sorts := EffectiveSortsOf(col, req.sorts);
    if |sorts| == 0 { return Err(InvalidSort); }
    var bad := CheckCursor(env, col, req, sorts);
    if bad.Some? { return Err(bad.value); }
    var err, p := CompileClauses(env, col, req, sorts);
    if err.Some? { return Err(err.value); }
    r := Ok(Compiled(p.where, p.args + [Number(limit + 1)], limit, KeysOf(col.fields, sorts), sorts,
                     ShapeOf(env, col, req)));
  }

  /** What compilation yields: the clauses, and the limit's own argument last. */
  ghost function CompiledOf(env: Env, col: Collection, req: Request): Compiled
    requires ClausesCompile(env, col, req)
  {
    var p := PlanOf(env, col, req);
    Compiled(p.where, p.args + [Number(LimitOf(req) + 1)], LimitOf(req), KeysFor(col, req),
             EffectiveSorts(col, req.sorts), ShapeOf(env, col, req))
  }

  /** A page has as many rows as asked for, 50 if that is not said, and its query asks for one more. */
  lemma LimitExactly(env: Env, col: Collection, req: Request)
    requires Accepts(env, col, req)
    ensures var c, n := CompiledOf(env, col, req), if req.limit == 0 then 50 else req.limit;
            0 < n <= 250 && c.limit == n && c.args != [] && c.args[|c.args| - 1] == Number(n + 1)
  {
  }

  /** A cursor given out for one request fits another exactly if that asks for the same list in the same order. */
  lemma CursorFitsExactlyWhen(env: Env, col: Collection, req: Request, other: Collection, next: Request,
                              raw: seq<string>)
    requires next.cursor == Verified(ShapeOf(env, col, req), raw)
    ensures CursorFits(env, other, next) <==>
              && other.name == col.name && env.trim(next.query) == env.trim(req.query) && next.filters == req.filters
              && EffectiveSorts(other, next.sorts) == EffectiveSorts(col, req.sorts)
              && |raw| == |EffectiveSorts(other, next.sorts)|
  {
  }

  // ---------------------------------------------------------------- meaning preserved

  lemma SearchAdds(env: Env, fields: seq<Field>, q: string, p: Plan, row: Row)
    requires PlanOk(p)
    ensures var s := AddSearch(fields, q, p);
            && PlanOk(s)
            && (Keeps(env.sem, s.where, s.args, row) <==>
                  Keeps(env.sem, p.where, p.args, row) && (q != "" ==> SearchHolds(env, fields, q, row)))
  {
    if q != "" {
      SearchMeans(env, fields, q, p.args, row);
      AddMeans(env.sem, p, AnyOf(SearchParts(SearchFields(fields), |p.args| + 1)),
               SearchArgs(|SearchFields(fields)|, q), row);
    }
  }

  lemma CursorAdds(env: Env, col: Collection, req: Request, p: Plan, row: Row)
    requires EnvOk(env) && PlanOk(p) && CursorAccepted(env, col, req)
    requires req.cursor.Verified? ==> StrictOrder(env.sem.less)
    ensures var s := AddCursor(env, col, req, p);
            && PlanOk(s)
            && (Keeps(env.sem, s.where, s.args, row) <==>
                  && Keeps(env.sem, p.where, p.args, row)
                  && (req.cursor.Verified? ==> AfterCursor(env, col, req, row) && !Skipped(env, col, req, row)))
  {
    if req.cursor.Verified? {
      var keys, values := KeysFor(col, req), After(env, col, req);
      KeysetMeans(env.sem, keys, values, p.args, row);
      KeysetPlaced(keys, values, p.args);
      AddMeans(env.sem, p, AnyOf(KeysetParts(keys, values, |keys|, |p.args| + 1)), KeysetArgs(values, |keys|), row);
    }
  }

  lemma KeepsStable(sem: Semantics, p: Plan, more: seq<Value>, row: Row)
    requires PlanOk(p)
    ensures Keeps(sem, p.where, p.args + more, row) <==> Keeps(sem, p.where, p.args, row)
  {
    forall i | 0 <= i < |p.where|
      ensures Eval(sem, p.where[i], row, p.args + more) == Eval(sem, p.where[i], row, p.args)
    {
      ClauseStable(sem, p.where[i], row, p.args, p.args + more);
    }
  }

  lemma ValidLists(env: Env, col: Collection, req: Request)
    requires Valid(env, col, req)
    ensures NonEmptyLists(req.filters)
  {
    forall i | 0 <= i < |req.filters| ensures ListsIn(req.filters[i]) {
      assert FilterOk(env, col, req.filters[i]);
    }
  }

  lemma FilteredMeans(env: Env, col: Collection, req: Request, row: Row)
    requires EnvOk(env) && Valid(env, col, req) && ClausesCompile(env, col, req)
    ensures var q := AddFilters(env, col.fields, req.filters,
                                AddSearch(col.fields, env.trim(req.query), Plan([], col.selectArgs)));
            && PlanOk(q)
            && (Keeps(env.sem, q.where, q.args, row) <==>
                  && (env.trim(req.query) != "" ==> SearchHolds(env, col.fields, env.trim(req.query), row))
                  && AllFiltersHold(env, col.fields, req.filters, row))
  {
    var base := Plan([], col.selectArgs);
    SearchAdds(env, col.fields, env.trim(req.query), base, row);
    ValidLists(env, col, req);
    FiltersMean(env, col.fields, req.filters, AddSearch(col.fields, env.trim(req.query), base), row);
  }

  lemma PlanMeans(env: Env, col: Collection, req: Request, row: Row)
    requires EnvOk(env) && Valid(env, col, req) && ClausesCompile(env, col, req)
    requires req.cursor.Verified? ==> StrictOrder(env.sem.less)
    ensures var p := PlanOf(env, col, req);
            && PlanOk(p)
            && (Keeps(env.sem, p.where, p.args, row) <==>
                  RowMatches(env, col, req, row) && !Skipped(env, col, req, row))
  {
    FilteredMeans(env, col, req, row);
    CursorAdds(env, col, req, AddFilters(env, col.fields, req.filters,
                                         AddSearch(col.fields, env.trim(req.query), Plan([], col.selectArgs))), row);
  }

  lemma CompiledKeeps(env: Env, col: Collection, req: Request, row: Row)
    requires ClausesCompile(env, col, req) && PlanOk(PlanOf(env, col, req))
    ensures var c, p := CompiledOf(env, col, req), PlanOf(env, col, req);
            Keeps(env.sem, c.where, c.args, row) <==> Keeps(env.sem, p.where, p.args, row)
  {
    KeepsStable(env.sem, PlanOf(env, col, req), [Number(LimitOf(req) + 1)], row);
  }

  /**
    Compilation preserves meaning: under the final argument list, limit included,
    the clauses are true of exactly the rows the request asks for, but for those
    after a cursor that are null where they first differ from it.
   */
  lemma CompiledMeans(env: Env, col: Collection, req: Request, row: Row)
    requires EnvOk(env) && Accepts(env, col, req)
    requires req.cursor.Verified? ==> StrictOrder(env.sem.less)
    ensures var c := CompiledOf(env, col, req);
            Keeps(env.sem, c.where, c.args, row) <==>
              RowMatches(env, col, req, row) && !Skipped(env, col, req, row)
  {
    PlanMeans(env, col, req, row);
    CompiledKeeps(env, col, req, row);
  }
}

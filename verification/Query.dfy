/**
  Admin list requests and their compilation.  A request names fields of a
  collection; compiling it checks it against the collection's descriptor and
  emits clauses with numbered placeholders and the arguments for them.
 */
module Query {
  import opened Options
  import opened Sql
  import opened Keyset
  import Like

  datatype FieldType = TypeString | TypeUuid | TypeInt | TypeBool | TypeTimestamp | TypeJson

  datatype Op =
    | OpEq | OpNe | OpLt | OpLte | OpGt | OpGte
    | OpIn | OpNotIn | OpContains | OpPrefix | OpIsNull | OpIsNotNull

  datatype Field = Field(
    name: string, column: string, ftype: FieldType, ops: seq<Op>, sortable: bool, searchable: bool, pk: bool)

  datatype Filter = Filter(field: string, op: Op, value: string, values: seq<string>)

  datatype Sort = Sort(field: string, descending: bool)

  datatype Collection = Collection(name: string, fields: seq<Field>, selectArgs: seq<Value>, defaultSorts: seq<Sort>)

  /** What a cursor is bound to; the digest of it is taken to be injective. */
  datatype Shape = Shape(collection: string, query: string, filters: seq<Filter>, sorts: seq<Sort>)

  /** A cursor as the signer sees it. */
  datatype Cursor = NoCursor | Unverifiable | Verified(shape: Shape, sortValues: seq<string>)

  datatype Request = Request(query: string, filters: seq<Filter>, sorts: seq<Sort>, limit: nat, cursor: Cursor)

  /** Text handling outside this model: value coercion, value syntax checks and trimming. */
  datatype Env = Env(
    sem: Semantics, coerce: (FieldType, string) -> Option<Value>, parses: (FieldType, string) -> bool,
    trim: string -> string)

  /** Coercion never yields null. */
  ghost predicate EnvOk(env: Env) {
    forall t, v :: env.coerce(t, v).Some? ==> !env.coerce(t, v).value.Null?
  }

  const DEFAULT_LIMIT := 50
  const MAX_LIMIT := 250
  const MAX_FILTERS := 16
  const MAX_SORTS := 4
  const MAX_QUERY := 256
  const MAX_VALUES := 64

  // ---------------------------------------------------------------- fields

  const NO_FIELD := Field("", "", TypeString, [], false, false, false)

  /** The last field of that name wins, as in a map filled in order. */
  function Lookup(fields: seq<Field>, name: string): Option<Field> {
    if fields == [] then None
    else if fields[|fields| - 1].name == name then Some(fields[|fields| - 1])
    else Lookup(fields[..|fields| - 1], name)
  }

  function FieldOf(fields: seq<Field>, name: string): Field {
    var f := Lookup(fields, name);
    if f.Some? then f.value else NO_FIELD
  }

  method FieldsByName(fields: seq<Field>) returns (m: map<string, Field>)
    ensures forall name: string :: Lookup(fields, name) == if name in m then Some(m[name]) else None
  {
    m := map[];
    var i := 0;
    while i < |fields|
      invariant i <= |fields|
      invariant forall name: string :: Lookup(fields[..i], name) == if name in m then Some(m[name]) else None
    {
      assert fields[..i + 1][..i] == fields[..i];
      m := m[fields[i].name := fields[i]];
      i := i + 1;
    }
    assert fields[..i] == fields;
  }

  // ---------------------------------------------------------------- what a request means

  predicate OneOf(env: Env, t: FieldType, values: seq<string>, v: Value) {
    exists i :: 0 <= i < |values| && env.coerce(t, values[i]) == Some(v)
  }

  /** A filter on a row: null satisfies nothing but the null test. */
  predicate FilterHolds(env: Env, f: Field, fl: Filter, row: Row) {
    var v := Column(row, f.column);
    match fl.op
    case OpIsNull => v.Null?
    case OpIsNotNull => !v.Null?
    case OpIn => !v.Null? && OneOf(env, f.ftype, fl.values, v)
    case OpNotIn => !v.Null? && !OneOf(env, f.ftype, fl.values, v)
    case OpContains => !v.Null? && Like.Contains(env.sem.fold, env.sem.render(v), fl.value)
    case OpPrefix => !v.Null? && Like.StartsWith(env.sem.fold, env.sem.render(v), fl.value)
    case _ =>
      var x := env.coerce(f.ftype, fl.value);
      !v.Null? && x.Some? && Stands(env, fl.op, v, x.value)
  }

  /** A value stands in the relation a comparing filter names. */
  predicate Stands(env: Env, op: Op, v: Value, x: Value) {
    match op
    case OpEq => v == x
    case OpNe => v != x
    case OpLt => env.sem.less(v, x)
    case OpLte => env.sem.less(v, x) || v == x
    case OpGt => env.sem.less(x, v)
    case OpGte => env.sem.less(x, v) || v == x
    case _ => false
  }

  /** A text search: some searchable field's text contains the query. */
  predicate SearchHolds(env: Env, fields: seq<Field>, q: string, row: Row) {
    exists i :: 0 <= i < |fields| && fields[i].searchable && (fields[i].ftype.TypeString? || fields[i].ftype.TypeJson?)
                && !Column(row, fields[i].column).Null?
                && Like.Contains(env.sem.fold, env.sem.render(Column(row, fields[i].column)), q)
  }

  // ---------------------------------------------------------------- sorts

  predicate HasSort(sorts: seq<Sort>, field: string) {
    exists i :: 0 <= i < |sorts| && sorts[i].field == field
  }

  function WithPk(sorts: seq<Sort>, fields: seq<Field>): (r: seq<Sort>)
    ensures sorts <= r
  {
    if fields == [] then sorts else
    var r := WithPk(sorts, fields[..|fields| - 1]);
    var f := fields[|fields| - 1];
    if f.pk && f.sortable && !HasSort(r, f.name) then r + [Sort(f.name, false)] else r
  }

  /** The requested or default sorts with the primary key as tie-breaker. */
  function EffectiveSorts(col: Collection, sorts: seq<Sort>): seq<Sort> {
    WithPk(if sorts == [] then col.defaultSorts else sorts, col.fields)
  }

  function KeysOf(fields: seq<Field>, sorts: seq<Sort>): (r: seq<Key>)
    ensures |r| == |sorts|
  {
    seq(|sorts|, i requires 0 <= i < |sorts| => Key(FieldOf(fields, sorts[i].field).column, sorts[i].descending))
  }

  /** Every sortable primary-key field takes part in the order. */
  lemma {:induction false} PkSorted(sorts: seq<Sort>, fields: seq<Field>, i: nat)
    requires i < |fields| && fields[i].pk && fields[i].sortable
    ensures HasSort(WithPk(sorts, fields), fields[i].name)
    decreases |fields|
  {
    var before := WithPk(sorts, fields[..|fields| - 1]);
    var all := WithPk(sorts, fields);
    if i < |fields| - 1 {
      PkSorted(sorts, fields[..|fields| - 1], i);
      var k :| 0 <= k < |before| && before[k].field == fields[i].name;
      assert all[k] == before[k];
    } else if HasSort(before, fields[i].name) {
      assert all == before;
    } else {
      assert all[|before|].field == fields[i].name;
    }
  }

  /** fields[i] is the first sortable primary-key field of its name. */
  predicate FirstPk(fields: seq<Field>, i: int, name: string) {
    && 0 <= i < |fields| && fields[i].pk && fields[i].sortable && fields[i].name == name
    && forall j :: 0 <= j < i && fields[j].pk && fields[j].sortable ==> fields[j].name != name
  }

  /** What follows the base: ascending sorts on sortable primary-key fields that the base does not have. */
  ghost predicate Follow(base: seq<Sort>, fields: seq<Field>, all: seq<Sort>) {
    forall k :: |base| <= k < |all| ==> IsTieBreaker(base, fields, all[k])
  }

  ghost predicate IsTieBreaker(base: seq<Sort>, fields: seq<Field>, sort: Sort) {
    !sort.descending && !HasSort(base, sort.field) && exists i :: FirstPk(fields, i, sort.field)
  }

  ghost predicate InFieldOrder(base: seq<Sort>, fields: seq<Field>, all: seq<Sort>) {
    forall k, l, i, j ::
      (|base| <= k < l < |all| && FirstPk(fields, i, all[k].field) && FirstPk(fields, j, all[l].field)) ==> i < j
  }

  ghost predicate CoversPk(fields: seq<Field>, all: seq<Sort>) {
    forall i :: 0 <= i < |fields| && fields[i].pk && fields[i].sortable ==> HasSort(all, fields[i].name)
  }

  /** Sorts, then an ascending one per sortable primary-key field not sorted by yet, each once and in field order. */
  ghost predicate Completes(base: seq<Sort>, fields: seq<Field>, all: seq<Sort>) {
    base <= all && Follow(base, fields, all) && InFieldOrder(base, fields, all) && CoversPk(fields, all)
  }

  lemma FirstPkLonger(fields: seq<Field>, f: Field, i: int, name: string)
    requires FirstPk(fields, i, name)
    ensures FirstPk(fields + [f], i, name)
  {
    assert forall j :: 0 <= j < |fields| ==> (fields + [f])[j] == fields[j];
  }

  lemma FirstPkOnce(fields: seq<Field>, i: int, j: int, name: string)
    requires FirstPk(fields, i, name) && FirstPk(fields, j, name)
    ensures i == j
  {
  }

  lemma NewPk(fields: seq<Field>, f: Field, all: seq<Sort>)
    requires f.pk && f.sortable && !HasSort(all, f.name) && CoversPk(fields, all)
    ensures FirstPk(fields + [f], |fields|, f.name)
  {
    assert forall j :: 0 <= j < |fields| ==> (fields + [f])[j] == fields[j];
  }

  function Extended(all: seq<Sort>, f: Field): seq<Sort> {
    if f.pk && f.sortable && !HasSort(all, f.name) then all + [Sort(f.name, false)] else all
  }

  lemma FollowMore(base: seq<Sort>, fields: seq<Field>, f: Field, all: seq<Sort>)
    requires Completes(base, fields, all)
    ensures Follow(base, fields + [f], Extended(all, f))
  {
    var more, next := fields + [f], Extended(all, f);
    forall k | |base| <= k < |next| ensures IsTieBreaker(base, more, next[k]) {
      if k < |all| {
        assert IsTieBreaker(base, fields, all[k]);
        var i :| FirstPk(fields, i, all[k].field);
        FirstPkLonger(fields, f, i, all[k].field);
      } else {
        NewPk(fields, f, all);
        assert forall j :: 0 <= j < |base| ==> base[j] == all[j];
      }
    }
  }

  lemma OrderMore(base: seq<Sort>, fields: seq<Field>, f: Field, all: seq<Sort>)
    requires Completes(base, fields, all)
    ensures InFieldOrder(base, fields + [f], Extended(all, f))
  {
    var more, next := fields + [f], Extended(all, f);
    forall k, l, i, j |
      |base| <= k < l < |next| && FirstPk(more, i, next[k].field) && FirstPk(more, j, next[l].field)
      ensures i < j
    {
      assert IsTieBreaker(base, fields, all[k]);
      var m :| FirstPk(fields, m, all[k].field);
      FirstPkLonger(fields, f, m, all[k].field);
      FirstPkOnce(more, i, m, all[k].field);
      if l < |all| {
        assert IsTieBreaker(base, fields, all[l]);
        var n :| FirstPk(fields, n, all[l].field);
        FirstPkLonger(fields, f, n, all[l].field);
        FirstPkOnce(more, j, n, all[l].field);
      } else {
        NewPk(fields, f, all);
        FirstPkOnce(more, j, |fields|, f.name);
      }
    }
  }

  lemma CoversMore(fields: seq<Field>, f: Field, all: seq<Sort>)
    requires CoversPk(fields, all)
    ensures CoversPk(fields + [f], Extended(all, f))
  {
    var more, next := fields + [f], Extended(all, f);
    forall i | 0 <= i < |more| && more[i].pk && more[i].sortable ensures HasSort(next, more[i].name) {
      if i < |fields| || HasSort(all, f.name) {
        var k :| 0 <= k < |all| && all[k].field == more[i].name;
        assert next[k].field == more[i].name;
      } else {
        assert next[|all|].field == more[i].name;
      }
    }
  }

  lemma {:induction false} WithPkCompletes(base: seq<Sort>, fields: seq<Field>)
    ensures Completes(base, fields, WithPk(base, fields))
    decreases |fields|
  {
    if fields != [] {
      var before, f := fields[..|fields| - 1], fields[|fields| - 1];
      WithPkCompletes(base, before);
      FollowMore(base, before, f, WithPk(base, before));
      OrderMore(base, before, f, WithPk(base, before));
      CoversMore(before, f, WithPk(base, before));
      assert fields == before + [f];
    }
  }

  /** The sorts of a listing: the requested ones, or else the default ones, completed by the primary key. */
  lemma EffectiveSortsExactly(col: Collection, sorts: seq<Sort>)
    ensures Completes(if sorts == [] then col.defaultSorts else sorts, col.fields, EffectiveSorts(col, sorts))
  {
    WithPkCompletes(if sorts == [] then col.defaultSorts else sorts, col.fields);
  }

  method EffectiveSortsOf(col: Collection, requested: seq<Sort>) returns (sorts: seq<Sort>)
    ensures sorts == EffectiveSorts(col, requested)
  {
    sorts := requested;
    if |sorts| == 0 { sorts := col.defaultSorts; }
    ghost var base := sorts;
    var i := 0;
    while i < |col.fields|
      invariant i <= |col.fields| && sorts == WithPk(base, col.fields[..i])
    {
      assert col.fields[..i + 1][..i] == col.fields[..i];
      var f := col.fields[i];
      if f.pk && f.sortable && !HasSort(sorts, f.name) { sorts := sorts + [Sort(f.name, false)]; }
      i := i + 1;
    }
    assert col.fields[..i] == col.fields;
  }

  // ---------------------------------------------------------------- validation

  predicate ListOk(env: Env, f: Field, values: seq<string>) {
    0 < |values| <= MAX_VALUES && forall i :: 0 <= i < |values| ==> env.parses(f.ftype, values[i])
  }

  predicate ValueOk(env: Env, f: Field, fl: Filter) {
    match fl.op
    case OpIsNull => true
    case OpIsNotNull => true
    case OpIn => ListOk(env, f, fl.values)
    case OpNotIn => ListOk(env, f, fl.values)
    case _ => (fl.value != "" || f.ftype.TypeString?) && env.parses(f.ftype, fl.value)
  }

  predicate FilterOk(env: Env, col: Collection, fl: Filter) {
    var f := Lookup(col.fields, fl.field);
    f.Some? && fl.op in f.value.ops && ValueOk(env, f.value, fl)
  }

  predicate SortOk(col: Collection, s: Sort) {
    var f := Lookup(col.fields, s.field);
    f.Some? && f.value.sortable
  }

  predicate WithinLimits(req: Request) {
    req.limit <= MAX_LIMIT && |req.filters| <= MAX_FILTERS && |req.sorts| <= MAX_SORTS && |req.query| <= MAX_QUERY
  }

  predicate Valid(env: Env, col: Collection, req: Request) {
    && WithinLimits(req)
    && (forall i :: 0 <= i < |req.filters| ==> FilterOk(env, col, req.filters[i]))
    && (forall i :: 0 <= i < |req.sorts| ==> SortOk(col, req.sorts[i]))
  }

  datatype Error =
    | InvalidLimit | TooManyFilters | TooManySorts | QueryTooLong | InvalidField | InvalidOp | InvalidSort
    | BadValue | BadCursor | CursorMismatch

  /** What is wrong with one filter or sort that the descriptor does not allow. */
  function FilterError(col: Collection, fl: Filter): Error {
    var f := Lookup(col.fields, fl.field);
    if f.None? then InvalidField else if fl.op !in f.value.ops then InvalidOp else BadValue
  }

  function SortError(col: Collection, s: Sort): Error {
    if Lookup(col.fields, s.field).None? then InvalidField else InvalidSort
  }

  ghost predicate FirstBadFilter(env: Env, col: Collection, req: Request, i: int) {
    && 0 <= i < |req.filters| && !FilterOk(env, col, req.filters[i])
    && forall k :: 0 <= k < i ==> FilterOk(env, col, req.filters[k])
  }

  ghost predicate FirstBadSort(col: Collection, req: Request, i: int) {
    && 0 <= i < |req.sorts| && !SortOk(col, req.sorts[i])
    && forall k :: 0 <= k < i ==> SortOk(col, req.sorts[k])
  }

  /** The error a bad request is refused with: the limits in turn, the first bad filter, then the first bad sort. */
  ghost predicate Reports(env: Env, col: Collection, req: Request, e: Error) {
    if req.limit > MAX_LIMIT then e == InvalidLimit
    else if |req.filters| > MAX_FILTERS then e == TooManyFilters
    else if |req.sorts| > MAX_SORTS then e == TooManySorts
    else if |req.query| > MAX_QUERY then e == QueryTooLong
    else if exists i :: FirstBadFilter(env, col, req, i)
    then exists i :: FirstBadFilter(env, col, req, i) && e == FilterError(col, req.filters[i])
    else exists i :: FirstBadSort(col, req, i) && e == SortError(col, req.sorts[i])
  }

  method CheckValue(env: Env, f: Field, fl: Filter) returns (err: Option<Error>)
    ensures err == if ValueOk(env, f, fl) then None else Some(BadValue)
  {
    if fl.op.OpIsNull? || fl.op.OpIsNotNull? { return None; }
    if fl.op.OpIn? || fl.op.OpNotIn? {
      if |fl.values| == 0 || |fl.values| > MAX_VALUES { return Some(BadValue); }
      var i := 0;
      while i < |fl.values|
        invariant i <= |fl.values| && forall k :: 0 <= k < i ==> env.parses(f.ftype, fl.values[k])
      {
        if !env.parses(f.ftype, fl.values[i]) { return Some(BadValue); }
        i := i + 1;
      }
      return None;
    }
    if fl.value == "" && !f.ftype.TypeString? { return Some(BadValue); }
    if !env.parses(f.ftype, fl.value) { return Some(BadValue); }
    err := None;
  }

  method Validate(env: Env, col: Collection, req: Request) returns (err: Option<Error>)
    ensures err.None? <==> Valid(env, col, req)
    ensures err.Some? ==> Reports(env, col, req, err.value)
  {
    if req.limit > MAX_LIMIT { return Some(InvalidLimit); }
    if |req.filters| > MAX_FILTERS { return Some(TooManyFilters); }
    if |req.sorts| > MAX_SORTS { return Some(TooManySorts); }
    if |req.query| > MAX_QUERY { return Some(QueryTooLong); }
    var byName := FieldsByName(col.fields);
    var i := 0;
    while i < |req.filters|
      invariant i <= |req.filters| && forall k :: 0 <= k < i ==> FilterOk(env, col, req.filters[k])
    {
      var fl := req.filters[i];
      assert Lookup(col.fields, fl.field) == if fl.field in byName then Some(byName[fl.field]) else None;
      assert !FilterOk(env, col, fl) ==> FirstBadFilter(env, col, req, i);
      if fl.field !in byName { return Some(InvalidField); }
      if fl.op !in byName[fl.field].ops { return Some(InvalidOp); }
      err := CheckValue(env, byName[fl.field], fl);
      if err.Some? { return; }
      i := i + 1;
    }
    i := 0;
    while i < |req.sorts|
      invariant i <= |req.sorts| && forall k :: 0 <= k < i ==> SortOk(col, req.sorts[k])
    {
      var s := req.sorts[i];
      assert Lookup(col.fields, s.field) == if s.field in byName then Some(byName[s.field]) else None;
      assert !SortOk(col, s) ==> FirstBadSort(col, req, i);
      if s.field !in byName { return Some(InvalidField); }
      if !byName[s.field].sortable { return Some(InvalidSort); }
      i := i + 1;
    }
    err := None;
  }
}

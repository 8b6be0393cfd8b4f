/** The Supabase data provider: compiling a list request into a recorded chain of builder calls,
    resolving a resource's field configuration, and normalising the backend's response. */
module DataProvider {
  import opened Wrappers
  import opened Strings
  import opened Values
  import opened Filters
  import opened Builder

  /** A resource's configuration: a plain array of fields (used for both selection and
      full-text search), or an object naming the two lists separately. */
  datatype ResourceOptions =
    | Columns(columns: seq<string>)
    | WithFullTextSearch(fields: seq<string>, fullTextSearchFields: seq<string>)

  type ResourcesOptions = map<string, ResourceOptions>

  datatype Pagination = Pagination(page: int, perPage: int)
  datatype Sort = Sort(field: string, order: string)
  datatype ListParams = ListParams(pagination: Pagination, sort: Sort, filter: Filter)
  datatype ReferenceParams =
    ReferenceParams(target: string, id: Value, pagination: Pagination, sort: Sort, filter: Filter)

  datatype ListResult = ListResult(data: seq<Row>, total: int)

  /** Why an operation throws: no configuration for the resource (reading `.fields` of
      `undefined`), or the backend reported an error. */
  datatype Failure = UnknownResource(resource: string) | QueryFailed(error: BackendError)

  const FullTextKey := "q"
  const CustomFilterKey := "customFilterQuery"
  const GteSuffix := ".gte"
  const LteSuffix := ".lte"

  // ---------------------------------------------------------------------------------------
  // Field resolution

  /** `Array.isArray(options) ? options : options.fields` */
  function SelectFields(options: ResourceOptions): seq<string> {
    match options
    case Columns(columns) => columns
    case WithFullTextSearch(fields, _) => fields
  }

  /** `Array.isArray(options) ? options : options.fullTextSearchFields` */
  function SearchFields(options: ResourceOptions): seq<string> {
    match options
    case Columns(columns) => columns
    case WithFullTextSearch(_, searchFields) => searchFields
  }

  /** The argument of `select`: `fields.join(', ')`. */
  function SelectArg(options: ResourceOptions): string {
    Join(SelectFields(options), ", ")
  }

  /** The select argument lists exactly the configured fields, in order, duplicates and
      operator suffixes included: an array configuration is used as it is, an object
      configuration contributes its `fields`. */
  lemma SelectArgLists(options: ResourceOptions)
    requires |SelectFields(options)| > 0
    requires forall i :: 0 <= i < |SelectFields(options)| ==> ',' !in SelectFields(options)[i]
    ensures options.Columns? ==> Split(SelectArg(options), ", ") == options.columns
    ensures options.WithFullTextSearch? ==> Split(SelectArg(options), ", ") == options.fields
  {
    SplitJoin(SelectFields(options), ", ");
  }

  /** An array configuration searches the very fields it selects. */
  lemma ArrayConfigSearchesSelectedFields(columns: seq<string>)
    ensures SearchFields(Columns(columns)) == SelectFields(Columns(columns)) == columns
  {
  }

  // ---------------------------------------------------------------------------------------
  // Pagination

  /** `(page - 1) * perPage` */
  function RangeFrom(p: Pagination): int {
    (p.page - 1) * p.perPage
  }

  /** `rangeFrom + perPage`: no `- 1`, although `range` takes an inclusive upper bound. */
  function RangeTo(p: Pagination): int {
    RangeFrom(p) + p.perPage
  }

  /** The row indexes `range(from, to)` asks for: both bounds inclusive. */
  predicate InRange(p: Pagination, row: int) {
    RangeFrom(p) <= row <= RangeTo(p)
  }

  /** The bounds are `perPage` apart, and each page starts where the previous one ended. */
  lemma PageBounds(page: int, perPage: int)
    ensures RangeTo(Pagination(page, perPage)) - RangeFrom(Pagination(page, perPage)) == perPage
    ensures RangeFrom(Pagination(page + 1, perPage)) == RangeTo(Pagination(page, perPage))
  {
    assert page * perPage == (page - 1) * perPage + perPage;
  }

  /** As written, a page asks for `perPage + 1` rows, and two adjacent pages share exactly one
      row: the last row of a page is the first row of the next. */
  lemma AdjacentPagesOverlap(page: int, perPage: int, row: int)
    requires perPage >= 0
    ensures var p, next := Pagination(page, perPage), Pagination(page + 1, perPage);
      && RangeTo(p) - RangeFrom(p) + 1 == perPage + 1
      && (InRange(p, row) && InRange(next, row) <==> row == RangeTo(p))
  {
    PageBounds(page, perPage);
  }

  // ---------------------------------------------------------------------------------------
  // The reserved filter keys

  /** The value of `m[key]` as `if (x)` and `${x}` see it: the text the template literal makes
      of it, when the key is present with a truthy value. */
  function ReservedText(m: map<string, Value>, key: string): Option<string> {
    if key in m && Truthy(m[key]) then Some(Interpolate(m[key])) else None
  }

  /** A reserved key takes effect exactly when it is present with a truthy value, and the
      expression it contributes is then never empty; a string value is used verbatim. */
  lemma ReservedTextSpec(m: map<string, Value>, key: string)
    ensures ReservedText(m, key).Some? <==> key in m && Truthy(m[key])
    ensures ReservedText(m, key).Some? ==> ReservedText(m, key).value != ""
    ensures key in m && m[key].Text? && m[key].s != "" ==> ReservedText(m, key) == Some(m[key].s)
  {
  }

  /** What `match` receives: the filter without `q` and without `customFilterQuery`. */
  function MatchFilter(f: Filter): map<string, Value> {
    f.entries - {FullTextKey, CustomFilterKey}
  }

  /** The keys the `for (var key in filter)` loop visits, in order. */
  function ForInKeys(f: Filter): seq<string> {
    Without(f.order, {FullTextKey, CustomFilterKey})
  }

  /** The map handed to `match` keeps every key other than the two reserved ones, with its
      value, comparison keys included; the loop visits exactly the keys of that map. */
  lemma MatchKeepsOtherKeys(f: Filter)
    requires f.WellFormed()
    ensures forall k :: k in MatchFilter(f) <==> k in f.entries && k != FullTextKey && k != CustomFilterKey
    ensures forall k :: k in MatchFilter(f) ==> MatchFilter(f)[k] == f.entries[k]
    ensures forall k :: k in ForInKeys(f) <==> k in MatchFilter(f)
    ensures Distinct(ForInKeys(f))
  {
  }

  // ---------------------------------------------------------------------------------------
  // Comparison clauses

  predicate IsComparisonKey(key: string) {
    EndsWith(key, GteSuffix) || EndsWith(key, LteSuffix)
  }

  /** No key ends with both suffixes. */
  lemma SuffixesExclusive(key: string)
    ensures !(EndsWith(key, GteSuffix) && EndsWith(key, LteSuffix))
  {
    EndsWithSlice(key, GteSuffix);
    EndsWithSlice(key, LteSuffix);
  }

  /** The calls one loop iteration adds: the two independent `if`s of the source. A key ends
      with at most one of the suffixes, so at most one call is added. */
  function ComparisonOp(key: string, v: Value): (r: seq<Op>)
    ensures EndsWith(key, GteSuffix) ==> r == [Gte(RemoveFirst(key, GteSuffix), v)]
    ensures EndsWith(key, LteSuffix) ==> r == [Lte(RemoveFirst(key, LteSuffix), v)]
    ensures !IsComparisonKey(key) ==> r == []
  {
    SuffixesExclusive(key);
    (if EndsWith(key, GteSuffix) then [Gte(RemoveFirst(key, GteSuffix), v)] else [])
    + (if EndsWith(key, LteSuffix) then [Lte(RemoveFirst(key, LteSuffix), v)] else [])
  }

  /** `replace` removes only the first occurrence of the suffix: the key "a.gte.b.gte" filters
      column "a.b.gte", not "a.gte.b". */
  lemma ReplaceRemovesFirstOccurrence(v: Value)
    ensures ComparisonOp("a.gte.b.gte", v) == [Gte("a.b.gte", v)]
  {
    var key := "a.gte.b.gte";
    assert key[0..4][0] != GteSuffix[0];
    assert OccursAt(key, GteSuffix, 1);
    FirstOccurrence(key, GteSuffix, 1);
    EndsWithSlice(key, GteSuffix);
    assert key[|key| - 4..] == GteSuffix;
    assert key[..1] + key[1 + 4..] == "a.b.gte";
  }

  /** The calls the whole loop adds, visiting `keys` in order. */
  function ComparisonOps(keys: seq<string>, m: map<string, Value>): seq<Op>
    requires forall k :: k in keys ==> k in m
  {
    if |keys| == 0 then [] else ComparisonOp(keys[0], m[keys[0]]) + ComparisonOps(keys[1..], m)
  }

  /** Keys visited later contribute their calls later. */
  lemma {:induction false} ComparisonOpsAppend(a: seq<string>, b: seq<string>, m: map<string, Value>)
    requires forall k :: k in a + b ==> k in m
    ensures ComparisonOps(a + b, m) == ComparisonOps(a, m) + ComparisonOps(b, m)
  {
    if |a| > 0 {
      assert (a + b)[0] == a[0];
      assert (a + b)[1..] == a[1..] + b;
      ComparisonOpsAppend(a[1..], b, m);
    } else {
      assert a + b == b;
    }
  }

  /** One more loop iteration appends the calls of the next key. */
  lemma ComparisonOpsSnoc(keys: seq<string>, i: int, m: map<string, Value>)
    requires 0 <= i < |keys|
    requires forall k :: k in keys ==> k in m
    ensures ComparisonOps(keys[..i + 1], m) == ComparisonOps(keys[..i], m) + ComparisonOp(keys[i], m[keys[i]])
  {
    assert keys[..i + 1] == keys[..i] + [keys[i]];
    ComparisonOpsAppend(keys[..i], [keys[i]], m);
  }

  /** The comparison keys among `keys`, in order. */
  function ComparisonKeys(keys: seq<string>): (r: seq<string>)
    ensures forall k :: k in r <==> k in keys && IsComparisonKey(k)
    ensures Distinct(keys) ==> Distinct(r)
  {
    if |keys| == 0 then []
    else if IsComparisonKey(keys[0]) then [keys[0]] + ComparisonKeys(keys[1..])
    else ComparisonKeys(keys[1..])
  }

  /** The call a comparison key yields: its column is the key with the FIRST occurrence of
      its suffix removed. */
  function Clause(key: string, v: Value): Op
    requires IsComparisonKey(key)
  {
    if EndsWith(key, GteSuffix) then Gte(RemoveFirst(key, GteSuffix), v)
    else Lte(RemoveFirst(key, LteSuffix), v)
  }

  /** One call per comparison key of `keys`, in order: the reference definition the loop is
      compared with. */
  function Clauses(keys: seq<string>, m: map<string, Value>): (r: seq<Op>)
    requires forall k :: k in keys ==> k in m && IsComparisonKey(k)
    ensures |r| == |keys|
  {
    if |keys| == 0 then [] else [Clause(keys[0], m[keys[0]])] + Clauses(keys[1..], m)
  }

  /** The loop emits one call per comparison key, in key order, and nothing for other keys:
      it equals `Clauses` over the comparison keys. */
  lemma {:induction false} ComparisonOpsSpec(keys: seq<string>, m: map<string, Value>)
    requires forall k :: k in keys ==> k in m
    ensures ComparisonOps(keys, m) == Clauses(ComparisonKeys(keys), m)
  {
    if |keys| > 0 {
      var k, rest := keys[0], keys[1..];
      ComparisonOpsSpec(rest, m);
      if IsComparisonKey(k) {
        assert ComparisonOp(k, m[k]) == [Clause(k, m[k])];
        var ak := ComparisonKeys(keys);
        assert ak[0] == k && ak[1..] == ComparisonKeys(rest);
      } else {
        assert ComparisonOp(k, m[k]) == [];
      }
    }
  }

  /** The loop adds exactly one call per comparison key. */
  lemma ComparisonOpsLength(keys: seq<string>, m: map<string, Value>)
    requires forall k :: k in keys ==> k in m
    ensures |ComparisonOps(keys, m)| == |ComparisonKeys(keys)|
  {
    ComparisonOpsSpec(keys, m);
  }

  /** The j-th call of `Clauses` comes from the j-th key. */
  lemma {:induction false} ClausesAt(keys: seq<string>, m: map<string, Value>, j: int)
    requires forall k :: k in keys ==> k in m && IsComparisonKey(k)
    requires 0 <= j < |keys|
    ensures Clauses(keys, m)[j] == Clause(keys[j], m[keys[j]])
  {
    if j > 0 {
      ClausesAt(keys[1..], m, j - 1);
    }
  }

  /** Only `Gte` and `Lte` calls come out of the loop. */
  lemma {:induction false} ComparisonOpsKinds(keys: seq<string>, m: map<string, Value>)
    requires forall k :: k in keys ==> k in m
    ensures forall op :: op in ComparisonOps(keys, m) ==> op.Gte? || op.Lte?
  {
    if |keys| > 0 {
      ComparisonOpsKinds(keys[1..], m);
    }
  }

  // ---------------------------------------------------------------------------------------
  // Full-text search and the custom filter expression

  /** `fields.map(field => `${field}.ilike.%${q}%`)` */
  function IlikeTerms(fields: seq<string>, q: string): (r: seq<string>)
    ensures |r| == |fields|
  {
    seq(|fields|, j requires 0 <= j < |fields| => fields[j] + ".ilike.%" + q + "%")
  }

  /** The argument of the full-text `or`: the terms joined with ",". */
  function SearchExpr(options: ResourceOptions, q: string): string {
    Join(IlikeTerms(SearchFields(options), q), ",")
  }

  /** `if (q) query = query.or(...)` */
  function SearchClause(options: ResourceOptions, q: Option<string>): seq<Op> {
    if q.Some? then [Or(SearchExpr(options, q.value))] else []
  }

  /** `if (customFilterQuery) query = query.or(`${customFilterQuery}`)` */
  function CustomClause(custom: Option<string>): seq<Op> {
    if custom.Some? then [Or(custom.value)] else []
  }

  /** The full-text expression holds one `ilike` containment term per search field, in order,
      provided neither the fields nor the term contain a comma. */
  lemma SearchExprTerms(options: ResourceOptions, q: string)
    requires |SearchFields(options)| > 0 && ',' !in q
    requires forall i :: 0 <= i < |SearchFields(options)| ==> ',' !in SearchFields(options)[i]
    ensures var terms := Split(SearchExpr(options, q), ",");
      && |terms| == |SearchFields(options)|
      && forall j :: 0 <= j < |terms| ==> terms[j] == SearchFields(options)[j] + ".ilike.%" + q + "%"
  {
    var terms := IlikeTerms(SearchFields(options), q);
    forall i | 0 <= i < |terms|
      ensures ","[0] !in terms[i]
    {
      assert terms[i] == SearchFields(options)[i] + ".ilike.%" + q + "%";
    }
    SplitJoin(terms, ",");
  }

  // ---------------------------------------------------------------------------------------
  // getList

  /** The two optional `or` calls that end the chain: the custom expression when
      `customFilterQuery` is truthy, then the full-text expression when `q` is truthy. */
  function ListDisjunctions(options: ResourceOptions, entries: map<string, Value>): seq<Op> {
    CustomClause(ReservedText(entries, CustomFilterKey)) + SearchClause(options, ReservedText(entries, FullTextKey))
  }

  /** The query `getList` builds, stated as the fixed sequence of its parts: select with an
      exact count, order, match, range, the comparison calls, then the optional `or`s. */
  function ListPlan(options: ResourceOptions, table: string, params: ListParams): Query
    requires params.filter.WellFormed()
  {
    var f := params.filter;
    var m := MatchFilter(f);
    Query(table,
      [ Select(SelectArg(options), true),
        Order(params.sort.field, params.sort.order == "ASC"),
        Match(m),
        Range(RangeFrom(params.pagination), RangeTo(params.pagination)) ]
      + ComparisonOps(ForInKeys(f), m)
      + ListDisjunctions(options, f.entries))
  }

  /** Deleting `q` and then `customFilterQuery` leaves the match filter and the keys the loop
      visits; `customFilterQuery` is read before its deletion, where it is still the caller's. */
  lemma DeletesReserved(f: Filter)
    ensures var g := Delete(f, FullTextKey);
      && Delete(g, CustomFilterKey).entries == MatchFilter(f)
      && Delete(g, CustomFilterKey).order == ForInKeys(f)
      && ReservedText(g.entries, CustomFilterKey) == ReservedText(f.entries, CustomFilterKey)
  {
    WithoutWithout(f.order, {FullTextKey}, {CustomFilterKey});
    assert {FullTextKey} + {CustomFilterKey} == {FullTextKey, CustomFilterKey};
  }

  /** Concatenation is associative. */
  lemma AppendAssoc<T>(a: seq<T>, b: seq<T>, c: seq<T>)
    ensures (a + b) + c == a + (b + c)
  {
  }

  /** The `for (var key in filter)` loop of `getList`: for every key, in enumeration order, a
      `gte` call when it ends with ".gte" and an `lte` call when it ends with ".lte", each on the
      key with that suffix's first occurrence removed. */
  method AddComparisons(calls: seq<Op>, filter: Filter) returns (result: seq<Op>)
    requires forall k :: k in filter.order ==> k in filter.entries
    ensures result == calls + ComparisonOps(filter.order, filter.entries)
  {
    result := calls;
    var keys := filter.order;
    var i := 0;
    while i < |keys|
      invariant 0 <= i <= |keys|
      invariant result == calls + ComparisonOps(keys[..i], filter.entries)
    {
      ghost var before := result;
      var key := keys[i];
      if EndsWith(key, GteSuffix) {
        result := result + [Gte(RemoveFirst(key, GteSuffix), filter.entries[key])];
      }
      if EndsWith(key, LteSuffix) {
        result := result + [Lte(RemoveFirst(key, LteSuffix), filter.entries[key])];
      }
      assert result == before + ComparisonOp(key, filter.entries[key]);
      ComparisonOpsSnoc(keys, i, filter.entries);
      AppendAssoc(calls, ComparisonOps(keys[..i], filter.entries), ComparisonOp(key, filter.entries[key]));
      i := i + 1;
    }
    assert keys[..i] == keys;
  }

  /** Builds the query step by step as the source does: take `q` out of the filter, remove
      `customFilterQuery` from it in place, chain select/order/match/range, then one call per
      comparison key in the loop, then the optional `or` calls. */
  method CompileList(options: ResourceOptions, table: string, params: ListParams) returns (query: Query)
    requires params.filter.WellFormed()
    ensures query == ListPlan(options, table, params)
  {
    var q := ReservedText(params.filter.entries, FullTextKey);
    var filter := Delete(params.filter, FullTextKey);         // { q, ...filter }
    var rangeFrom := RangeFrom(params.pagination);
    var rangeTo := RangeTo(params.pagination);
    var customFilterQuery := ReservedText(filter.entries, CustomFilterKey);
    filter := Delete(filter, CustomFilterKey);                // delete filterSafe.customFilterQuery

    var calls := [ Select(SelectArg(options), true),
                   Order(params.sort.field, params.sort.order == "ASC"),
                   Match(filter.entries),
                   Range(rangeFrom, rangeTo) ];
    calls := AddComparisons(calls, filter);
    DeletesReserved(params.filter);
    ghost var body := calls;
    if customFilterQuery.Some? {
      calls := calls + [Or(customFilterQuery.value)];
    }
    assert calls == body + CustomClause(customFilterQuery);
    ghost var custom := calls;
    if q.Some? {
      calls := calls + [Or(SearchExpr(options, q.value))];
    }
    assert calls == custom + SearchClause(options, q);
    AppendAssoc(body, CustomClause(customFilterQuery), SearchClause(options, q));
    assert ListPlan(options, table, params).calls == body + ListDisjunctions(options, params.filter.entries);
    query := Query(table, calls);
  }

  /** The call order is fixed: select (with an exact count) on the configured fields, order
      (ascending exactly when the sort order is "ASC"), match, range, and then one comparison
      call per comparison key in enumeration order (see `ClausesAt`). */
  lemma ListPlanPrefix(options: ResourceOptions, table: string, params: ListParams)
    requires params.filter.WellFormed()
    ensures var calls := ListPlan(options, table, params).calls;
      var keys := ComparisonKeys(ForInKeys(params.filter));
      var m := MatchFilter(params.filter);
      && |calls| >= 4 + |keys|
      && calls[0] == Select(SelectArg(options), true)
      && calls[1] == Order(params.sort.field, params.sort.order == "ASC")
      && calls[2] == Match(m)
      && calls[3] == Range(RangeFrom(params.pagination), RangeTo(params.pagination))
      && calls[4..4 + |keys|] == Clauses(keys, m)
  {
    var f := params.filter;
    MatchKeepsOtherKeys(f);
    ComparisonOpsSpec(ForInKeys(f), MatchFilter(f));
  }

  /** The tail of the chain holds one `or` per truthy reserved key, custom expression first. */
  lemma ListDisjunctionsSpec(options: ResourceOptions, entries: map<string, Value>)
    ensures var d := ListDisjunctions(options, entries);
      var hasCustom := CustomFilterKey in entries && Truthy(entries[CustomFilterKey]);
      var hasQ := FullTextKey in entries && Truthy(entries[FullTextKey]);
      && |d| == (if hasCustom then 1 else 0) + (if hasQ then 1 else 0)
      && (forall op :: op in d ==> op.Or?)
      && (hasCustom ==> d[0] == Or(Interpolate(entries[CustomFilterKey])))
      && (hasQ ==> d[|d| - 1] == Or(SearchExpr(options, Interpolate(entries[FullTextKey]))))
  {
  }

  /** The only `or` calls are the last ones: one with the custom expression when
      `customFilterQuery` is truthy, then one with the full-text expression when `q` is truthy.
      No other call is made. */
  lemma ListPlanDisjunctions(options: ResourceOptions, table: string, params: ListParams)
    requires params.filter.WellFormed()
    ensures var calls := ListPlan(options, table, params).calls;
      var entries := params.filter.entries;
      var n := 4 + |ComparisonKeys(ForInKeys(params.filter))|;
      && |calls| >= n
      && calls[n..] == ListDisjunctions(options, entries)
      && (forall j :: 0 <= j < n ==> !calls[j].Or?)
      && (forall j :: n <= j < |calls| ==> calls[j].Or?)
  {
    var f := params.filter;
    var m := MatchFilter(f);
    var keys := ForInKeys(f);
    MatchKeepsOtherKeys(f);
    ComparisonOpsLength(keys, m);
    ComparisonOpsKinds(keys, m);
    var head := [ Select(SelectArg(options), true),
                  Order(params.sort.field, params.sort.order == "ASC"),
                  Match(m),
                  Range(RangeFrom(params.pagination), RangeTo(params.pagination)) ];
    DisjunctionsAreOrs(options, f.entries);
    OrsOnlyAtEnd(head, ComparisonOps(keys, m), ListDisjunctions(options, f.entries));
  }

  /** The tail of the chain is made of `or` calls only. */
  lemma DisjunctionsAreOrs(options: ResourceOptions, entries: map<string, Value>)
    ensures forall op :: op in ListDisjunctions(options, entries) ==> op.Or?
  {
  }

  /** In `head + body + tail` with `or` calls only in `tail`, the `or` calls are exactly the
      positions from `|head| + |body|` on. */
  lemma OrsOnlyAtEnd(head: seq<Op>, body: seq<Op>, tail: seq<Op>)
    requires forall op :: op in head ==> !op.Or?
    requires forall op :: op in body ==> !op.Or?
    requires forall op :: op in tail ==> op.Or?
    ensures var calls := head + body + tail;
      var n := |head| + |body|;
      && calls[n..] == tail
      && (forall j :: 0 <= j < n ==> !calls[j].Or?)
      && (forall j :: n <= j < |calls| ==> calls[j].Or?)
  {
    var calls := head + body + tail;
    forall j | 0 <= j < |calls|
      ensures j < |head| + |body| <==> !calls[j].Or?
    {
      if j < |head| {
        assert calls[j] == head[j];
      } else if j < |head| + |body| {
        assert calls[j] == body[j - |head|];
      } else {
        assert calls[j] == tail[j - |head| - |body|];
      }
    }
    assert calls[|head| + |body|..] == tail;
  }

  /** A response with an error fails with that error and gives no result; otherwise the rows
      default to [] and the total to 0. */
  function NormaliseList(resp: Response<seq<Row>>): (r: Result<ListResult, Failure>)
    ensures r.Err? <==> resp.error.Some?
    ensures r.Err? ==> r.error == QueryFailed(resp.error.value)
    ensures r.Ok? ==> r.value.data == (if resp.data.Some? then resp.data.value else [])
    ensures r.Ok? ==> r.value.total == (if resp.count.Some? then resp.count.value else 0)
  {
    if resp.error.Some? then Err(QueryFailed(resp.error.value))
    else Ok(ListResult(resp.data.GetOr([]), resp.count.GetOr(0)))
  }

  /** `getList`: an unconfigured resource throws before any query is made; otherwise the
      compiled query is run and its response normalised. */
  method GetList(resources: ResourcesOptions, resource: string, params: ListParams,
                 backend: Query -> Response<seq<Row>>)
    returns (r: Result<ListResult, Failure>)
    requires params.filter.WellFormed()
    ensures resource !in resources ==> r == Err(UnknownResource(resource))
    ensures resource in resources ==> r == NormaliseList(backend(ListPlan(resources[resource], resource, params)))
  {
    if resource !in resources {
      return Err(UnknownResource(resource));
    }
    var query := CompileList(resources[resource], resource, params);
    var response := backend(query);
    r := NormaliseList(response);
  }

  // ---------------------------------------------------------------------------------------
  // getManyReference

  /** `{ ...params, filter: { ...params.filter, [target]: id } }`, as seen by `getList`. */
  function WithReference(params: ReferenceParams): (r: ListParams)
    ensures r.pagination == params.pagination && r.sort == params.sort
    ensures r.filter.entries.Keys == params.filter.entries.Keys + {params.target}
    ensures r.filter.entries[params.target] == params.id
    ensures forall k :: k in params.filter.entries && k != params.target ==>
              r.filter.entries[k] == params.filter.entries[k]
    ensures params.filter.WellFormed() ==> r.filter.WellFormed()
  {
    ListParams(params.pagination, params.sort, Set(params.filter, params.target, params.id))
  }

  /** Unless the target is one of the reserved keys, the reference constraint reaches `match`
      on top of the caller's filter, overriding any value the filter had for that key. */
  lemma ReferenceIsMatched(params: ReferenceParams)
    requires params.target != FullTextKey && params.target != CustomFilterKey
    ensures MatchFilter(WithReference(params).filter) == MatchFilter(params.filter)[params.target := params.id]
  {
    var lhs := MatchFilter(WithReference(params).filter);
    var rhs := MatchFilter(params.filter)[params.target := params.id];
    assert lhs.Keys == rhs.Keys;
  }

  /** `getManyReference`: `getList` on the same resource with the reference merged into the
      filter. */
  method GetManyReference(resources: ResourcesOptions, resource: string, params: ReferenceParams,
                          backend: Query -> Response<seq<Row>>)
    returns (r: Result<ListResult, Failure>)
    requires params.filter.WellFormed()
    ensures resource !in resources ==> r == Err(UnknownResource(resource))
    ensures resource in resources ==>
              r == NormaliseList(backend(ListPlan(resources[resource], resource, WithReference(params))))
  {
    r := GetList(resources, resource, WithReference(params), backend);
  }

  // ---------------------------------------------------------------------------------------
  // getOne and getMany

  /** `from(table).select(fields.join(', ')).match({ id }).single()` */
  function OneQuery(options: ResourceOptions, table: string, id: Value): Query {
    Query(table, [Select(SelectArg(options), false), Match(map["id" := id]), Single])
  }

  /** `from(table).select(fields.join(', ')).in('id', ids)` */
  function ManyQuery(options: ResourceOptions, table: string, ids: seq<Value>): Query {
    Query(table, [Select(SelectArg(options), false), In("id", ids)])
  }

  /** `getOne`: fails on an unconfigured resource or a backend error; otherwise returns the
      backend's record as it is, null included. */
  function GetOne(resources: ResourcesOptions, resource: string, id: Value, backend: Query -> Response<Row>)
    : (r: Result<Option<Row>, Failure>)
    ensures resource !in resources ==> r == Err(UnknownResource(resource))
    ensures resource in resources ==>
              var resp := backend(OneQuery(resources[resource], resource, id));
              && (r.Err? <==> resp.error.Some?)
              && (r.Err? ==> r.error == QueryFailed(resp.error.value))
              && (r.Ok? ==> r.value == resp.data)
  {
    if resource !in resources then Err(UnknownResource(resource))
    else
      var resp := backend(OneQuery(resources[resource], resource, id));
      if resp.error.Some? then Err(QueryFailed(resp.error.value)) else Ok(resp.data)
  }

  /** `getMany`: fails on an unconfigured resource or a backend error; otherwise the rows,
      defaulting to []. */
  function GetMany(resources: ResourcesOptions, resource: string, ids: seq<Value>,
                   backend: Query -> Response<seq<Row>>)
    : (r: Result<seq<Row>, Failure>)
    ensures resource !in resources ==> r == Err(UnknownResource(resource))
    ensures resource in resources ==>
              var resp := backend(ManyQuery(resources[resource], resource, ids));
              && (r.Err? <==> resp.error.Some?)
              && (r.Err? ==> r.error == QueryFailed(resp.error.value))
              && (r.Ok? ==> r.value == (if resp.data.Some? then resp.data.value else []))
  {
    if resource !in resources then Err(UnknownResource(resource))
    else
      var resp := backend(ManyQuery(resources[resource], resource, ids));
      if resp.error.Some? then Err(QueryFailed(resp.error.value)) else Ok(resp.data.GetOr([]))
  }

  /** `getOne`, `getMany` and `getList` resolve a resource's fields the same way: their
      `select` calls carry the same column list; only `getList` asks for an exact count. */
  lemma FieldResolutionShared(options: ResourceOptions, table: string, id: Value, ids: seq<Value>,
                              params: ListParams)
    requires params.filter.WellFormed()
    ensures OneQuery(options, table, id).calls[0] == Select(SelectArg(options), false)
    ensures ManyQuery(options, table, ids).calls[0] == Select(SelectArg(options), false)
    ensures ListPlan(options, table, params).calls[0] == Select(SelectArg(options), true)
  {
  }

  /** On the same response, `getMany` and `getList` agree: both fail with the backend's error,
      or both return the same rows, defaulted to []. */
  lemma ManyAndListAgree(resources: ResourcesOptions, resource: string, ids: seq<Value>,
                         backend: Query -> Response<seq<Row>>)
    requires resource in resources
    ensures var resp := backend(ManyQuery(resources[resource], resource, ids));
      var many := GetMany(resources, resource, ids, backend);
      && (many.Err? <==> NormaliseList(resp).Err?)
      && (many.Ok? ==> many.value == NormaliseList(resp).value.data)
  {
  }
}

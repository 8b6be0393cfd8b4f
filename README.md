# ra-supabase data provider: the list-query compiler

This project models the query compiler of the react-admin data provider for Supabase, in
`packages/ra-supabase-core/src/dataProvider.ts`. The main operation is `getList`. It takes the
free-text term `q` and the reserved `customFilterQuery` out of the request's filter. It then
builds a chain of builder calls: `select` with an exact count, `order`, `match`, `range`, one
`gte`/`lte` call per key ending in `.gte`/`.lte`, and the optional `or` calls. Finally it runs the
chain and normalises the response. The model also covers the field resolution that `getOne` and
`getMany` share with `getList`, the filter merge of `getManyReference`, and the
`data ?? []` / `count ?? 0` defaults.

The Supabase builder is modelled as a recorder. A `Query` is the table plus the sequence of
`Op`s called on it (`builder.dfy`). The backend is a function parameter, mapping a recorded query
to a `Response` holding `data`, `error` and `count`.

A filter object is a `Filter` (`filters.dfy`). It holds a map from keys to values and the order in
which `for ... in` enumerates the keys. Two operations act on it:

- `Delete` models both `delete obj[key]` and the rest object of `{ q, ...filter }`.
- `Set` models the spread `{ ...filter, [target]: id }`.

Filter values are JavaScript strings, integers, booleans and `null` (`values.dfy`), together with
what `if (x)` (truthiness) and `${x}` (template rendering) make of them. `strings.dfy` holds the
string functions the compiler uses: `endsWith`, `indexOf`, `replace` with a string pattern (which
removes the first occurrence only) and `join`, together with `split`, the inverse of `join` that
the lemmas use, and the decimal rendering of integers with a reader that inverts it.

`getList` has the form it has in the source:

- `DataProvider.CompileList` is a method that assigns `filter` and `calls` step by step.
- Its `for (var key in filter)` loop is the method `DataProvider.AddComparisons`, a `while` loop
  over the enumeration order with its invariant.
- Both are proved equal to `DataProvider.ListPlan`, which states the query as a fixed sequence of
  parts.
- The properties of the call chain are lemmas about `ListPlan`.

The model follows the code as written:

- Only keys ending in `.gte` or `.lte` are comparison keys; every other key, `_gte`-style names
  included, is a plain `match` key.
- The column of a comparison is the key with the FIRST occurrence of the suffix removed
  (`key.replace('.gte', '')`), not the key with its trailing suffix stripped. So `"a.gte.b.gte"`
  filters column `"a.b.gte"` (`ReplaceRemovesFirstOccurrence`).
- Comparison keys stay in the map given to `match`.
- The configured fields go into `select` as they are, with no suffix stripping and no
  deduplication.
- The upper bound of the range is `rangeFrom + perPage`, without `- 1`. `range` is inclusive, so
  a page asks for `perPage + 1` rows, and adjacent pages share their boundary row
  (`AdjacentPagesOverlap`).

## Model

| member | source | states |
|---|---|---|
| DataProvider.SelectArgLists | packages/ra-supabase-core/src/dataProvider.ts:130-133 | the `select` argument splits back into exactly the configured fields, in order, duplicates and suffixed names included: an array configuration is used as it is, an object configuration contributes its `fields` |
| DataProvider.ArrayConfigSearchesSelectedFields | packages/ra-supabase-core/src/dataProvider.ts:167-169 | an array configuration is both the select list and the full-text search list |
| DataProvider.PageBounds | packages/ra-supabase-core/src/dataProvider.ts:135-136 | `rangeTo - rangeFrom == perPage`, and page p+1 starts at page p's `rangeTo` |
| DataProvider.AdjacentPagesOverlap | packages/ra-supabase-core/src/dataProvider.ts:135-148 | with the inclusive `range`, a page covers `perPage + 1` rows, and a row lies on two adjacent pages exactly when it is the first page's `rangeTo` |
| DataProvider.ReservedTextSpec | packages/ra-supabase-core/src/dataProvider.ts:161-166 | `q` / `customFilterQuery` take effect exactly when present with a truthy value; the text they contribute is then non-empty, and a string is used verbatim |
| DataProvider.MatchKeepsOtherKeys | packages/ra-supabase-core/src/dataProvider.ts:138-151 | the map given to `match` holds every key except `q` and `customFilterQuery`, with its value unchanged, comparison keys included; the loop visits exactly those keys, each once |
| DataProvider.DeletesReserved | packages/ra-supabase-core/src/dataProvider.ts:123-141 | after `{ q, ...filter }` and `delete filterSafe.customFilterQuery`, the filter is the match map in enumeration order, and `customFilterQuery` as read before the delete is the caller's value |
| DataProvider.ComparisonOp | packages/ra-supabase-core/src/dataProvider.ts:152-159 | a key ending in `.gte` adds exactly one `Gte` on the key with the first `.gte` removed, one ending in `.lte` exactly one `Lte` likewise, any other key adds nothing |
| DataProvider.ReplaceRemovesFirstOccurrence | packages/ra-supabase-core/src/dataProvider.ts:152-154 | example, not a general property: key `"a.gte.b.gte"` yields `Gte("a.b.gte", v)`, which shows that `replace` removes the first occurrence of the suffix rather than the suffix itself; the general fact is `RemoveFirst`, defined through `IndexOf` |
| DataProvider.ComparisonOpsAppend | packages/ra-supabase-core/src/dataProvider.ts:151-160 | the loop's calls over `a + b` are its calls over `a` followed by its calls over `b`: keys contribute in enumeration order |
| DataProvider.ComparisonOpsSpec | packages/ra-supabase-core/src/dataProvider.ts:151-160 | the loop's calls are one call per comparison key (`Clauses`), in enumeration order, and none for other keys |
| DataProvider.ClausesAt | packages/ra-supabase-core/src/dataProvider.ts:151-160 | the j-th comparison call is the interpretation of the j-th comparison key with its value |
| DataProvider.ComparisonKeys | packages/ra-supabase-core/src/dataProvider.ts:151-156 | the comparison keys are exactly the visited keys ending in `.gte` or `.lte`, each once |
| DataProvider.ComparisonOpsLength | packages/ra-supabase-core/src/dataProvider.ts:151-160 | the loop adds exactly as many calls as there are comparison keys |
| DataProvider.ComparisonOpsKinds | packages/ra-supabase-core/src/dataProvider.ts:151-160 | the loop adds only `gte` and `lte` calls |
| DataProvider.AddComparisons | packages/ra-supabase-core/src/dataProvider.ts:151-160 | the `for ... in` loop appends exactly the calls `ComparisonOps` gives for the enumeration order |
| DataProvider.SearchExprTerms | packages/ra-supabase-core/src/dataProvider.ts:167-173 | the full-text expression splits on "," into exactly one `field.ilike.%q%` term per search field, in order |
| DataProvider.ListDisjunctionsSpec | packages/ra-supabase-core/src/dataProvider.ts:161-174 | the chain ends with one `or` per truthy reserved key: first the custom expression as rendered by `${}`, then the full-text expression over the search fields |
| DataProvider.CompileList | packages/ra-supabase-core/src/dataProvider.ts:122-174 | the step-by-step construction, in-place delete and loop included, yields exactly `ListPlan` |
| DataProvider.ListPlanPrefix | packages/ra-supabase-core/src/dataProvider.ts:143-160 | the chain starts with `select` on the configured fields with an exact count, `order` (ascending exactly when the order is "ASC"), `match` on the filter without the reserved keys, `range(rangeFrom, rangeTo)`, then the comparison calls in key order |
| DataProvider.ListPlanDisjunctions | packages/ra-supabase-core/src/dataProvider.ts:143-174 | the `or` calls are exactly the last ones, and there are no other calls |
| DataProvider.NormaliseList | packages/ra-supabase-core/src/dataProvider.ts:176-181 | an error response fails with that error and no result; otherwise `data` defaults to [] and `total` to 0 |
| DataProvider.GetList | packages/ra-supabase-core/src/dataProvider.ts:122-182 | an unconfigured resource fails before any query; otherwise the result is the normalised response to `ListPlan` |
| DataProvider.WithReference | packages/ra-supabase-core/src/dataProvider.ts:45-49 | the merged filter has `target` set to `id`, overriding any earlier value, with every other key, pagination and sort unchanged |
| DataProvider.ReferenceIsMatched | packages/ra-supabase-core/src/dataProvider.ts:44-51 | unless the target is a reserved key, `match` receives the caller's match map with `target` set to `id` |
| DataProvider.GetManyReference | packages/ra-supabase-core/src/dataProvider.ts:44-51 | `getManyReference` is `getList` on the merged filter |
| DataProvider.GetOne | packages/ra-supabase-core/src/dataProvider.ts:11-27 | an unconfigured resource or a backend error fails; otherwise the record is returned as the backend gave it |
| DataProvider.GetMany | packages/ra-supabase-core/src/dataProvider.ts:28-43 | an unconfigured resource or a backend error fails; otherwise the rows, defaulting to [] |
| DataProvider.FieldResolutionShared | packages/ra-supabase-core/src/dataProvider.ts:130-145 | `getOne`, `getMany` and `getList` select the same column list; only `getList` asks for an exact count |
| DataProvider.ManyAndListAgree | packages/ra-supabase-core/src/dataProvider.ts:39-42 | on the same response, `getMany` and `getList` both fail, or both return the same rows defaulted to [] |
| Filters.Without | packages/ra-supabase-core/src/dataProvider.ts:138-141 | removing keys keeps exactly the other keys, each once; their order is stated by `WithoutSingle`, `WithoutAppend` and `WithoutNone` |
| Filters.WithoutSingle | packages/ra-supabase-core/src/dataProvider.ts:138-141 | a single key is kept exactly when it is not removed |
| Filters.WithoutAppend | packages/ra-supabase-core/src/dataProvider.ts:138-141 | removing keys from `a + b` gives the kept keys of `a` followed by the kept keys of `b`: the kept keys keep their relative order |
| Filters.WithoutNone | packages/ra-supabase-core/src/dataProvider.ts:138-141 | when none of the keys is removed, the sequence is unchanged |
| Filters.WithoutWithout | packages/ra-supabase-core/src/dataProvider.ts:138-141 | removing `q` and then `customFilterQuery` is removing both at once |
| Filters.Delete | packages/ra-supabase-core/src/dataProvider.ts:138-141 | the key is gone, every other property keeps its value, and the enumeration order is `Without` the key (see `DeleteKeepsPlaces`) |
| Filters.DeleteKeepsPlaces | packages/ra-supabase-core/src/dataProvider.ts:141 | deleting a key enumerated once turns the order `a + [key] + b` into `a + b`: every other key keeps its place |
| Filters.Set | packages/ra-supabase-core/src/dataProvider.ts:48 | the key takes the new value, other properties are unchanged, an existing key keeps its place and a new one is enumerated last |
| Values.Interpolate | packages/ra-supabase-core/src/dataProvider.ts:161-172 | a truthy value never renders as the empty string, and a string renders as itself |
| Strings.EndsWithSlice | packages/ra-supabase-core/src/dataProvider.ts:152-156 | `endsWith` holds exactly when the last characters are the suffix |
| Strings.IndexOf | packages/ra-supabase-core/src/dataProvider.ts:154-158 | the index found is the first occurrence of the pattern, and none is found exactly when there is no occurrence |
| Strings.RemoveFirstOfSuffix | packages/ra-supabase-core/src/dataProvider.ts:152-158 | a key ending in the suffix contains it, `replace` removes exactly the suffix's length, and the result is the key without its suffix when the suffix occurs nowhere earlier |
| Strings.SplitJoin | packages/ra-supabase-core/src/dataProvider.ts:145 | for a non-empty list whose elements avoid the separator's first character, splitting a `join` on the separator gives back the joined elements |
| DataProvider.ListPlan | packages/ra-supabase-core/src/dataProvider.ts:143-174 | definition; its properties are in `ListPlanPrefix`, `ListPlanDisjunctions` and `CompileList` |
| DataProvider.RangeFrom | packages/ra-supabase-core/src/dataProvider.ts:135 | definition; its properties are in `PageBounds` and `AdjacentPagesOverlap` |
| DataProvider.RangeTo | packages/ra-supabase-core/src/dataProvider.ts:136 | definition; its properties are in `PageBounds` and `AdjacentPagesOverlap` |
| DataProvider.SelectFields | packages/ra-supabase-core/src/dataProvider.ts:131-133 | definition; its properties are in `SelectArgLists` and `ArrayConfigSearchesSelectedFields` |
| DataProvider.SearchFields | packages/ra-supabase-core/src/dataProvider.ts:167-169 | definition; its properties are in `SearchExprTerms` and `ArrayConfigSearchesSelectedFields` |
| DataProvider.SelectArg | packages/ra-supabase-core/src/dataProvider.ts:145 | definition; its properties are in `SelectArgLists` and `FieldResolutionShared` |
| Strings.EndsWith | packages/ra-supabase-core/src/dataProvider.ts:152-156 | definition; its properties are in `EndsWithSlice` and `SuffixesExclusive` |
| Strings.RemoveFirst | packages/ra-supabase-core/src/dataProvider.ts:154-158 | definition; its properties are in `RemoveFirstOfSuffix` and `ReplaceRemovesFirstOccurrence` |
| Values.Truthy | packages/ra-supabase-core/src/dataProvider.ts:161-166 | definition; its properties are in `Interpolate` and `ReservedTextSpec` |
| DataProvider.ReservedText | packages/ra-supabase-core/src/dataProvider.ts:161-166 | definition; its properties are in `ReservedTextSpec` and `ListDisjunctionsSpec` |
| DataProvider.OneQuery | packages/ra-supabase-core/src/dataProvider.ts:17-21 | definition; its properties are in `GetOne` and `FieldResolutionShared` |
| DataProvider.ManyQuery | packages/ra-supabase-core/src/dataProvider.ts:34-37 | definition; its properties are in `GetMany` and `FieldResolutionShared` |
| DataProvider.ComparisonOps | packages/ra-supabase-core/src/dataProvider.ts:151-160 | definition; its properties are in `ComparisonOpsSpec`, `ComparisonOpsAppend` and `AddComparisons` |
| DataProvider.IsComparisonKey | packages/ra-supabase-core/src/dataProvider.ts:152-156 | definition; its properties are in `ComparisonKeys` and `SuffixesExclusive` |
| DataProvider.Clause | packages/ra-supabase-core/src/dataProvider.ts:152-158 | definition; its properties are in `ClausesAt` and `ComparisonOpsSpec` |
| DataProvider.MatchFilter | packages/ra-supabase-core/src/dataProvider.ts:147 | definition; its properties are in `MatchKeepsOtherKeys` and `DeletesReserved` |
| DataProvider.ForInKeys | packages/ra-supabase-core/src/dataProvider.ts:151 | definition; its properties are in `MatchKeepsOtherKeys` and `DeletesReserved` |
| DataProvider.InRange | packages/ra-supabase-core/src/dataProvider.ts:148 | definition; its properties are in `AdjacentPagesOverlap` |
| DataProvider.IlikeTerms | packages/ra-supabase-core/src/dataProvider.ts:172 | definition; its properties are in `SearchExprTerms` |
| DataProvider.SearchExpr | packages/ra-supabase-core/src/dataProvider.ts:171-173 | definition; its properties are in `SearchExprTerms` |
| DataProvider.CustomClause | packages/ra-supabase-core/src/dataProvider.ts:161-164 | definition; its properties are in `ListDisjunctionsSpec` |
| DataProvider.SearchClause | packages/ra-supabase-core/src/dataProvider.ts:166-174 | definition; its properties are in `ListDisjunctionsSpec` |
| DataProvider.ListDisjunctions | packages/ra-supabase-core/src/dataProvider.ts:161-174 | definition; its properties are in `ListDisjunctionsSpec` and `ListPlanDisjunctions` |
| Strings.Join | packages/ra-supabase-core/src/dataProvider.ts:145 | definition; its properties are in `SplitJoin` |
| Strings.IntToDecimal | packages/ra-supabase-core/src/dataProvider.ts:163 | definition; its properties are in `Interpolate` and `IntToDecimalRoundTrip` |
| Strings.NatToDecimalRoundTrip | packages/ra-supabase-core/src/dataProvider.ts:163 | the digits `${n}` writes for a non-negative integer are decimal digits only, and reading them back gives `n` |
| Strings.IntToDecimalRoundTrip | packages/ra-supabase-core/src/dataProvider.ts:163 | reading back the rendering `${n}` of any integer, sign included, gives `n`: the rendering loses nothing |

## Left out

- `create`, `update`, `updateMany`, `delete` and `deleteMany` (`dataProvider.ts:52-108`) are
  single pass-through calls to the client. They have no compilation logic.
- The `console.log`, `console.warn` and `console.info` calls (`dataProvider.ts:128,150,153,157,162`)
  are debug output and do not affect behaviour.
- `packages/ra-supabase-ui-materialui/src/LoginPage.tsx` is not part of this model. It is UI
  composition.
- The network is not modelled. `await` and query execution are replaced by the `backend` function
  parameter, and the server-side meaning of `match`, `range`, `gte`, `lte`, `ilike` and `or` is out
  of scope.
- The key order of `for ... in` is an input (`Filter.order`). JavaScript's ordering rules
  (integer-like keys first, inherited enumerable properties) are not modelled.
- The in-place `delete` on `filterSafe` is modelled as reassigning one filter value. `filterSafe`
  and `filter` both stand for that single variable. `filter || {}` always picks `filter`, because a
  rest object is never falsy.
- Filter values are limited to strings, integers, booleans and `null`. Floating-point numbers,
  `undefined`, objects and arrays are not modelled.
- Values.Interpolate: renders every integer as plain decimal digits. JavaScript renders `${n}` in
  exponent form from 1e21 on (`"1e+21"`), and integers beyond 2^53 are not exact. A numeric `q` or
  `customFilterQuery` that large renders differently in the source.
- A missing `params.filter` (a destructuring `TypeError`) is not modelled. Neither is a
  configuration object whose `fields` or `fullTextSearchFields` is missing.
- An unconfigured resource is a failure (`UnknownResource`). In the source it is the `TypeError`
  raised by reading `.fields` of `undefined`.
- Page numbers, sizes and range bounds are unbounded integers. JavaScript's double-precision
  arithmetic is not modelled.
- DataProvider.SelectArgLists: stated only for a non-empty field list whose names contain no
  comma, because `split` cannot recover such a join.
- DataProvider.SearchExprTerms: stated only for a non-empty search list and a term, neither of
  which contains a comma, for the same reason.
- Strings.SplitJoin: holds only for a non-empty list whose elements avoid the separator's first
  character. `join` cannot be undone in general: `[]` and `[""]` both join to `""`, and an
  element containing the separator splits into several.
- Strings.RemoveFirstOfSuffix: gives the exact column only when the suffix occurs nowhere earlier
  in the key. Otherwise `ReplaceRemovesFirstOccurrence` shows the general case on an example, and
  `RemoveFirst` is defined by the first occurrence.

/** The Supabase query builder, seen only as a recorder of the calls made on it, and the
    response the backend gives to a recorded query. */
module Builder {
  import opened Wrappers
  import opened Values

  /** A row of a table. */
  type Row = map<string, Value>

  /** One call on the builder after `from(table)`. */
  datatype Op =
    | Select(columns: string, countExact: bool)   // .select(columns, { count: 'exact' }) or .select(columns)
    | Order(column: string, ascending: bool)       // .order(column, { ascending })
    | Match(query: map<string, Value>)             // .match(query)
    | Range(from: int, to: int)                    // .range(from, to)
    | Gte(column: string, value: Value)            // .gte(column, value)
    | Lte(column: string, value: Value)            // .lte(column, value)
    | Or(filters: string)                          // .or(filters)
    | In(column: string, values: seq<Value>)       // .in(column, values)
    | Single                                       // .single()

  /** `client.from(table)` followed by `calls`, in order. */
  datatype Query = Query(table: string, calls: seq<Op>)

  datatype BackendError = BackendError(message: string)

  /** What awaiting a query yields: `{ data, error, count }`, each possibly null. */
  datatype Response<T> = Response(data: Option<T>, error: Option<BackendError>, count: Option<int>)
}

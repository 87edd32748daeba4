/** The knex calls the handlers make, described as values instead of being
    run: a query names its table, its `where` filter, its projection or
    `returning` columns, its paging and its payload. What the database
    answers is a parameter of the model (`Backend`). */
module QueryBuilder {
  import opened Js

  datatype Query =
    | SelectRows(table: string, filter: Option<Value>, columns: Value, limit: Option<Value>, offset: Option<Value>)
    | InsertRow(table: string, payload: Value, returning: Value)
    | UpdateRows(table: string, filter: Option<Value>, payload: Value, returning: Value)
    | DeleteRows(table: string, filter: Option<Value>, returning: Value)

  /** What awaiting a query yields: the returned rows, or a rejection. */
  type Backend = Query -> Completion<seq<Value>>

  /** `const { limit = 50 } = req.query`. */
  function Limit(query: map<string, Value>): (r: Value)
    ensures !r.Undefined?
    ensures r == Num(50) || r == Get(query, "limit")
    ensures !Get(query, "limit").Undefined? ==> r == Get(query, "limit")
  {
    OrDefault(Get(query, "limit"), Num(50))
  }

  /** `const { offset = 0 } = req.query`. */
  function Offset(query: map<string, Value>): (r: Value)
    ensures !r.Undefined?
    ensures r == Num(0) || r == Get(query, "offset")
    ensures !Get(query, "offset").Undefined? ==> r == Get(query, "offset")
  {
    OrDefault(Get(query, "offset"), Num(0))
  }

  /** `req.params.id`. */
  function IdParam(req: Request): Value {
    if "id" in req.params then Str(req.params["id"]) else Undefined
  }

  /** The filter `{ id: req.params.id }`. */
  function IdFilter(req: Request): (r: Value)
    ensures r.Obj? && r.props.Keys == {"id"} && r.props["id"] == IdParam(req)
  {
    Obj(map["id" := IdParam(req)])
  }
}

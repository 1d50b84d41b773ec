/**
  The web framework's side of a request, as far as the generic view sees it.
 */
module Framework {
  import opened Orm

  /** A request: its query-string parameters and the database its session is bound to. */
  datatype Request = Request(params: map<string, string>, dbsession: Database)

  /** A Python value handed to a schema or a handler: a scalar, a request, or a dict. */
  datatype Datum = Scalar(value: Value) | Req(request: Request) | Dict(entries: map<string, Datum>)
}

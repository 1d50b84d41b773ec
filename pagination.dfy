/**
  Pagination strategies and the paginator instances a view builds from them.
 */
module Pagination {
  import opened Outcomes
  import opened Orm
  import opened Framework

  /**
    A pagination class: what its instances answer to the two calls a view makes.
    A page may be `None`, which a paginator returns when it declines to paginate.
   */
  datatype PaginationClass = PaginationClass(
    name: string,
    paginate: (Query, Request) -> Result<Option<Query>>,
    respond: Datum -> Result<Datum>)

  /** `BasePagination`: both operations are left to subclasses and always fail. */
  function BasePagination(): (c: PaginationClass)
    ensures forall q, req :: c.paginate(q, req) == Err(NotImplemented("paginate_queryset() must be implemented."))
    ensures forall data :: c.respond(data) == Err(NotImplemented("get_paginated_response() must be implemented."))
  {
    PaginationClass(
      "BasePagination",
      (q, req) => Err(NotImplemented("paginate_queryset() must be implemented.")),
      data => Err(NotImplemented("get_paginated_response() must be implemented.")))
  }

  /**
    An instance of a pagination class. The ghost logs record the calls made to it,
    in order, so that a caller's contract can say how often it delegated.
   */
  class PaginatorInstance {
    const cls: PaginationClass
    ghost var paginateCalls: seq<(Query, Request)>
    ghost var responseCalls: seq<Datum>

    constructor (cls: PaginationClass)
      ensures this.cls == cls
      ensures paginateCalls == [] && responseCalls == []
    {
      this.cls := cls;
      paginateCalls := [];
      responseCalls := [];
    }

    method PaginateQuery(query: Query, request: Request) returns (r: Result<Option<Query>>)
      modifies this
      ensures r == cls.paginate(query, request)
      ensures paginateCalls == old(paginateCalls) + [(query, request)]
      ensures responseCalls == old(responseCalls)
    {
      r := cls.paginate(query, request);
      paginateCalls := paginateCalls + [(query, request)];
    }

    method GetPaginatedResponse(data: Datum) returns (r: Result<Datum>)
      modifies this
      ensures r == cls.respond(data)
      ensures responseCalls == old(responseCalls) + [data]
      ensures paginateCalls == old(paginateCalls)
    {
      r := cls.respond(data);
      responseCalls := responseCalls + [data];
    }
  }
}

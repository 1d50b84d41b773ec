/**
  `GenericAPIView`: resolving a view's query, narrowing it with the configured
  filter classes, fetching one object by its lookup column, building the schema
  with the request in its context, and delegating to an optional paginator.

  The class-level configuration of a view is the value `Config`; the
  request-scoped view instance, which caches its paginator, is the class `View`.
 */
module Generics {
  import opened Outcomes
  import opened Orm
  import opened Framework
  import opened Pagination

  /** A schema class, known by name. */
  datatype SchemaClass = SchemaClass(name: string)

  /** A schema instance: the class and the arguments it was constructed with. */
  datatype Schema = Schema(klass: SchemaClass, args: seq<Datum>, kwargs: map<string, Datum>, strict: bool)

  /** `lookup_field`: a column name of the model, an `(entity, column)` tuple, or any other value. */
  datatype LookupField = Name(field: string) | Pair(entity: Entity, column: string) | Unsupported

  /** A filter class, instantiated and applied to the request and the query so far. */
  type Filter = (Request, Query) -> Query

  /**
    The class-level attributes of a concrete view. `getQueryOverride` and
    `getSchemaClassOverride` stand for a subclass that overrides `get_query` or
    `get_schema_class`; `objectPermitted` stands for `check_object_permissions`.
   */
  datatype Config = Config(
    model: Option<Entity>,
    schemaClass: Option<SchemaClass>,
    paginationClass: Option<PaginationClass>,
    filterClasses: seq<Filter>,
    lookupField: LookupField,
    getQueryOverride: Option<Request -> Query>,
    getSchemaClassOverride: Option<Request -> SchemaClass>,
    objectPermitted: (Request, Row) -> bool)

  /** The attributes `GenericAPIView` itself declares; the default pagination class comes from the settings. */
  function DefaultConfig(defaultPagination: Option<PaginationClass>, permitted: (Request, Row) -> bool): (c: Config)
    ensures c.model.None? && c.schemaClass.None? && c.filterClasses == [] && c.lookupField == Name("id")
    ensures c.paginationClass == defaultPagination
    ensures c.getQueryOverride.None? && c.getSchemaClassOverride.None?
  {
    Config(None, None, defaultPagination, [], Name("id"), None, None, permitted)
  }

  /** `get_query`: the subclass's query if it overrides the method, else every row of the model. */
  function GetQuery(c: Config, req: Request): (r: Result<Query>)
    ensures c.getQueryOverride.Some? ==> r == Ok(c.getQueryOverride.value(req))
    ensures c.getQueryOverride.None? ==> (r.Ok? <==> c.model.Some?)
    ensures c.getQueryOverride.None? && c.model.Some? ==> r == Ok(QueryAll(req.dbsession, c.model.value))
    ensures r.Err? ==> r.error.AssertionFailed?
  {
    match c.getQueryOverride
    case Some(query) => Ok(query(req))
    case None =>
      if c.model.None? then Err(AssertionFailed("should include a `model` attribute, or override the `get_query()` method."))
      else Ok(QueryAll(req.dbsession, c.model.value))
  }

  /** `filter_query`: the filter classes applied in declared order, each to the previous result. */
  function ApplyFilters(filters: seq<Filter>, req: Request, q: Query): (r: Query)
    ensures filters == [] ==> r == q
    ensures |filters| == 1 ==> r == filters[0](req, q)
    decreases |filters|
  {
    if filters == [] then q
    else
      var last := |filters| - 1;
      filters[last](req, ApplyFilters(filters[..last], req, q))
  }

  /** Applying `fs + gs` applies `fs` first, then `gs` to what `fs` left. */
  lemma {:induction false} ApplyFiltersAppend(fs: seq<Filter>, gs: seq<Filter>, req: Request, q: Query)
    ensures ApplyFilters(fs + gs, req, q) == ApplyFilters(gs, req, ApplyFilters(fs, req, q))
    decreases |gs|
  {
    if gs == [] {
      assert fs + gs == fs;
    } else {
      var last := |gs| - 1;
      assert (fs + gs)[..|fs + gs| - 1] == fs + gs[..last];
      ApplyFiltersAppend(fs, gs[..last], req, q);
    }
  }

  /** The first declared filter sees the query itself; the others see its output. */
  lemma ApplyFiltersFirst(f: Filter, fs: seq<Filter>, req: Request, q: Query)
    ensures ApplyFilters([f] + fs, req, q) == ApplyFilters(fs, req, f(req, q))
  {
    ApplyFiltersAppend([f], fs, req, q);
    assert [f][..0] == [];
  }

  /** A filter that only ever drops rows, as a `WHERE` clause does. */
  ghost predicate Narrowing(f: Filter) {
    forall req, q, row :: row in f(req, q) ==> row in q
  }

  /** Narrowing filters compose: each row the filters keep was a row of the input. */
  lemma {:induction false} ApplyFiltersNarrow(fs: seq<Filter>, req: Request, q: Query, row: Row)
    requires forall i :: 0 <= i < |fs| ==> Narrowing(fs[i])
    ensures row in ApplyFilters(fs, req, q) ==> row in q
    decreases |fs|
  {
    if fs != [] {
      var last := |fs| - 1;
      ApplyFiltersNarrow(fs[..last], req, q, row);
      assert Narrowing(fs[last]);
    }
  }

  /** The lookup `lookup_col == lookup_val` that `get_object` applies. */
  datatype Lookup = Lookup(column: Column, value: Value)

  /** `getattr(entity, attribute)` for a column attribute; `getattr(None, attribute)` fails as well. */
  function ColumnOf(entity: Option<Entity>, attribute: string): Result<Column> {
    if entity.Some? && attribute in entity.value.columns then Ok(Column(entity.value.name, attribute))
    else Err(AttributeError(attribute))
  }

  /** `lookup_url_kwargs[key]`. */
  function UrlKwarg(kwargs: map<string, Value>, key: string): Result<Value> {
    if key in kwargs then Ok(kwargs[key]) else Err(KeyError(key))
  }

  /**
    The lookup column and value of `get_object`. A string names a column of the
    model; a tuple names the entity and the column. Either way the URL keyword
    argument is the bare column name, and the column is resolved before the keyword.
   */
  function ResolveLookup(c: Config, kwargs: map<string, Value>): (r: Result<Lookup>)
    ensures c.lookupField.Name? ==>
      var f := c.lookupField.field;
      && (r.Ok? <==> c.model.Some? && f in c.model.value.columns && f in kwargs)
      && (r.Ok? ==> r.value == Lookup(Column(c.model.value.name, f), kwargs[f]))
      && (r.Err? ==> r.error == if c.model.Some? && f in c.model.value.columns then KeyError(f) else AttributeError(f))
    ensures c.lookupField.Pair? ==>
      var (e, col) := (c.lookupField.entity, c.lookupField.column);
      && (r.Ok? <==> col in e.columns && col in kwargs)
      && (r.Ok? ==> r.value == Lookup(Column(e.name, col), kwargs[col]))
      && (r.Err? ==> r.error == if col in e.columns then KeyError(col) else AttributeError(col))
    ensures c.lookupField.Unsupported? ==> r.Err? && r.error.AssertionFailed?
  {
    match c.lookupField
    case Name(field) =>
      var col :- ColumnOf(c.model, field);
      var val :- UrlKwarg(kwargs, field);
      Ok(Lookup(col, val))
    case Pair(entity, column) =>
      var col :- ColumnOf(Some(entity), column);
      var val :- UrlKwarg(kwargs, column);
      Ok(Lookup(col, val))
    case Unsupported =>
      Err(AssertionFailed("`lookup_field` attribute should be a string or a tuple of (<model class>, `column`) "))
  }

  /**
    `get_object`: the query, then the filters, then the lookup, then `.one()`,
    then the permission hook.
   */
  function Retrieve(c: Config, req: Request, kwargs: map<string, Value>): (r: Result<Row>)
    ensures r.Ok? ==>
      && GetQuery(c, req).Ok? && ResolveLookup(c, kwargs).Ok?
      && r.value in ApplyFilters(c.filterClasses, req, GetQuery(c, req).value)
      && Matches(r.value, ResolveLookup(c, kwargs).value.column, ResolveLookup(c, kwargs).value.value)
      && c.objectPermitted(req, r.value)
  {
    var base :- GetQuery(c, req);
    var q := ApplyFilters(c.filterClasses, req, base);
    var target :- ResolveLookup(c, kwargs);
    match One(Where(q, target.column, target.value))
    case NoRows => Err(NotFound)
    case ManyRows => Err(MultipleResultsFound)
    case Exactly(row) => if c.objectPermitted(req, row) then Ok(row) else Err(Forbidden)
  }

  /**
    Every outcome of `get_object`: configuration and lookup failures propagate;
    otherwise, over the FILTERED query, no match is HTTPNotFound, two matches are
    MultipleResultsFound, and a sole match is returned when the permission hook allows it.
   */
  lemma RetrieveOutcomes(c: Config, req: Request, kwargs: map<string, Value>)
    ensures GetQuery(c, req).Err? ==> Retrieve(c, req, kwargs) == Err(GetQuery(c, req).error)
    ensures GetQuery(c, req).Ok? && ResolveLookup(c, kwargs).Err? ==>
      Retrieve(c, req, kwargs) == Err(ResolveLookup(c, kwargs).error)
    ensures GetQuery(c, req).Ok? && ResolveLookup(c, kwargs).Ok? ==>
      var q := ApplyFilters(c.filterClasses, req, GetQuery(c, req).value);
      var t := ResolveLookup(c, kwargs).value;
      && (Retrieve(c, req, kwargs) == Err(NotFound) <==> NoMatch(q, t.column, t.value))
      && (Retrieve(c, req, kwargs) == Err(MultipleResultsFound) <==> SeveralMatch(q, t.column, t.value))
      && (forall row :: Retrieve(c, req, kwargs) == Ok(row) <==>
            SoleMatch(q, t.column, t.value, row) && c.objectPermitted(req, row))
      && (Retrieve(c, req, kwargs) == Err(Forbidden) <==>
            exists row :: SoleMatch(q, t.column, t.value, row) && !c.objectPermitted(req, row))
  {
    if GetQuery(c, req).Ok? && ResolveLookup(c, kwargs).Ok? {
      var q := ApplyFilters(c.filterClasses, req, GetQuery(c, req).value);
      var t := ResolveLookup(c, kwargs).value;
      WhereEmpty(q, t.column, t.value);
      WhereSeveral(q, t.column, t.value);
      forall row ensures Retrieve(c, req, kwargs) == Ok(row) <==>
          SoleMatch(q, t.column, t.value, row) && c.objectPermitted(req, row)
      {
        WhereSole(q, t.column, t.value, row);
      }
      var w := Where(q, t.column, t.value);
      if Retrieve(c, req, kwargs) == Err(Forbidden) {
        assert |w| == 1;
        WhereSole(q, t.column, t.value, w[0]);
        assert w == [w[0]];
      }
    }
  }

  /** With narrowing filters, the object `get_object` returns is a row of `get_query`'s result. */
  lemma RetrieveFromBase(c: Config, req: Request, kwargs: map<string, Value>, row: Row)
    requires forall i :: 0 <= i < |c.filterClasses| ==> Narrowing(c.filterClasses[i])
    requires Retrieve(c, req, kwargs) == Ok(row)
    ensures GetQuery(c, req).Ok? && row in GetQuery(c, req).value
  {
    var q := ApplyFilters(c.filterClasses, req, GetQuery(c, req).value);
    var t := ResolveLookup(c, kwargs).value;
    assert Where(q, t.column, t.value) == [row];
    assert row in Where(q, t.column, t.value);
    ApplyFiltersNarrow(c.filterClasses, req, GetQuery(c, req).value, row);
  }

  /** A bare `GenericAPIView` has neither a query nor a schema class, and looks objects up by `id`. */
  lemma BareViewUnconfigured(pagination: Option<PaginationClass>, permitted: (Request, Row) -> bool,
                             req: Request, kwargs: map<string, Value>)
    ensures GetQuery(DefaultConfig(pagination, permitted), req).Err?
    ensures GetSchemaClass(DefaultConfig(pagination, permitted), req).Err?
    ensures Retrieve(DefaultConfig(pagination, permitted), req, kwargs) == GetQuery(DefaultConfig(pagination, permitted), req).PropagateFailure()
    ensures DefaultConfig(pagination, permitted).lookupField == Name("id")
  {
  }

  /** `get_schema_class`: the class a subclass override picks for this request, else `schema_class`. */
  function GetSchemaClass(c: Config, req: Request): (r: Result<SchemaClass>)
    ensures r.Err? <==> c.getSchemaClassOverride.None? && c.schemaClass.None?
    ensures c.getSchemaClassOverride.Some? ==> r == Ok(c.getSchemaClassOverride.value(req))
    ensures c.getSchemaClassOverride.None? && c.schemaClass.Some? ==> r == Ok(c.schemaClass.value)
    ensures r.Err? ==> r.error.AssertionFailed?
  {
    match c.getSchemaClassOverride
    case Some(klass) => Ok(klass(req))
    case None =>
      if c.schemaClass.None? then Err(AssertionFailed("should either include a `schema_class` attribute, or override the `get_schema_class()` method."))
      else Ok(c.schemaClass.value)
  }

  /** `get_schema_context`: the default context, holding the request. */
  function GetSchemaContext(req: Request): (m: map<string, Datum>)
    ensures m.Keys == {"request"} && m["request"] == Req(req)
  {
    map["request" := Req(req)]
  }

  /** `kwargs.get('context', {})` when that is a mapping; `None` when it cannot be unpacked. */
  function CallerContext(kwargs: map<string, Datum>): (r: Option<map<string, Datum>>)
    ensures "context" !in kwargs ==> r == Some(map[])
    ensures "context" in kwargs ==> (r.Some? <==> kwargs["context"].Dict?)
    ensures "context" in kwargs && r.Some? ==> r.value == kwargs["context"].entries
  {
    if "context" !in kwargs then Some(map[])
    else if kwargs["context"].Dict? then Some(kwargs["context"].entries)
    else None
  }

  /** `{**defaults, **caller}`: every key of either, with the caller's value winning. */
  function MergeContext(defaults: map<string, Datum>, caller: map<string, Datum>): (m: map<string, Datum>)
    ensures m.Keys == defaults.Keys + caller.Keys
    ensures forall k :: k in caller ==> m[k] == caller[k]
    ensures forall k :: k in defaults && k !in caller ==> m[k] == defaults[k]
  {
    defaults + caller
  }

  /**
    A request-scoped view instance. Its configuration is fixed; `paginatorCache`
    is the `_paginator` attribute: `None` until the `paginator` property is first read.
   */
  class View {
    const config: Config
    const request: Request
    const lookupUrlKwargs: map<string, Value>
    var paginatorCache: Option<Option<PaginatorInstance>>

    /** A cached paginator is an instance of the configured pagination class. */
    ghost predicate Valid()
      reads this
    {
      paginatorCache.Some? ==>
        match paginatorCache.value
        case None => config.paginationClass.None?
        case Some(p) => config.paginationClass == Some(p.cls)
    }

    constructor (config: Config, request: Request, lookupUrlKwargs: map<string, Value>)
      ensures this.config == config && this.request == request && this.lookupUrlKwargs == lookupUrlKwargs
      ensures paginatorCache == None && Valid()
    {
      this.config := config;
      this.request := request;
      this.lookupUrlKwargs := lookupUrlKwargs;
      paginatorCache := None;
    }

    /** `filter_query`: a loop reassigning the query, once per filter class. */
    method FilterQuery(query: Query) returns (q: Query)
      ensures q == ApplyFilters(config.filterClasses, request, query)
      ensures config.filterClasses == [] ==> q == query
    {
      var filters := config.filterClasses;
      q := query;
      var i := 0;
      while i < |filters|
        invariant 0 <= i <= |filters|
        invariant q == ApplyFilters(filters[..i], request, query)
      {
        assert filters[..i + 1][..i] == filters[..i];
        q := filters[i](request, q);
        i := i + 1;
      }
      assert filters[..|filters|] == filters;
    }

    /** `get_object`. */
    method GetObject() returns (r: Result<Row>)
      ensures r == Retrieve(config, request, lookupUrlKwargs)
    {
      var base :- GetQuery(config, request);
      var query := FilterQuery(base);
      var target :- ResolveLookup(config, lookupUrlKwargs);
      match One(Where(query, target.column, target.value)) {
        case NoRows => r := Err(NotFound);
        case ManyRows => r := Err(MultipleResultsFound);
        case Exactly(instance) =>
          if !config.objectPermitted(request, instance) {
            r := Err(Forbidden);
          } else {
            r := Ok(instance);
          }
      }
    }

    /**
      `get_schema(*args, **kwargs)`: the schema class called with the caller's
      arguments, a `context` of the request overlaid with the caller's context,
      and `strict=True`.
     */
    method GetSchema(args: seq<Datum>, kwargs: map<string, Datum>) returns (r: Result<Schema>)
      ensures GetSchemaClass(config, request).Err? ==> r == Err(GetSchemaClass(config, request).error)
      ensures r.Ok? <==> GetSchemaClass(config, request).Ok? && CallerContext(kwargs).Some? && "strict" !in kwargs
      ensures GetSchemaClass(config, request).Ok? && !r.Ok? ==> r.Err? && r.error.TypeError?
      ensures r.Ok? ==>
        && r.value.klass == GetSchemaClass(config, request).value
        && r.value.args == args
        && r.value.strict
        && r.value.kwargs.Keys == kwargs.Keys + {"context"}
        && (forall k :: k in kwargs && k != "context" ==> r.value.kwargs[k] == kwargs[k])
      ensures r.Ok? ==>
        var caller := CallerContext(kwargs).value;
        var context := r.value.kwargs["context"];
        && context.Dict?
        && context.entries.Keys == caller.Keys + {"request"}
        && (forall k :: k in caller ==> context.entries[k] == caller[k])
        && ("request" !in caller ==> context.entries["request"] == Req(request))
    {
      var klass :- GetSchemaClass(config, request);
      var caller := CallerContext(kwargs);
      if caller.None? {
        return Err(TypeError("'context' argument is not a mapping"));
      }
      var kw := kwargs;
      kw := kw["context" := Dict(MergeContext(GetSchemaContext(request), caller.value))];
      if "strict" in kw {
        return Err(TypeError("got multiple values for keyword argument 'strict'"));
      }
      r := Ok(Schema(klass, args, kw, true));
    }

    /** The paginator held in the cache, if any: what a later call may touch. */
    function CachedPaginator(): set<object>
      reads this
    {
      if paginatorCache.Some? && paginatorCache.value.Some? then {paginatorCache.value.value} else {}
    }

    /**
      The `paginator` property: built on first access from the pagination class
      (or `None` without one) and stored; every later access returns the stored value.
     */
    method Paginator() returns (p: Option<PaginatorInstance>)
      requires Valid()
      modifies this`paginatorCache
      ensures Valid()
      ensures paginatorCache == Some(p)
      ensures old(paginatorCache).Some? ==> p == old(paginatorCache).value
      ensures p.None? <==> config.paginationClass.None?
      ensures old(paginatorCache).None? && p.Some? ==>
        fresh(p.value) && p.value.paginateCalls == [] && p.value.responseCalls == []
    {
      if paginatorCache.None? {
        if config.paginationClass.None? {
          paginatorCache := Some(None);
        } else {
          var instance := new PaginatorInstance(config.paginationClass.value);
          paginatorCache := Some(Some(instance));
        }
      }
      p := paginatorCache.value;
    }

    /** `paginate_query`: `None` without a paginator, else one delegated call. */
    method PaginateQuery(query: Query) returns (r: Result<Option<Query>>)
      requires Valid()
      modifies this`paginatorCache, CachedPaginator()
      ensures Valid() && paginatorCache.Some?
      ensures old(paginatorCache).Some? ==> paginatorCache == old(paginatorCache)
      ensures config.paginationClass.None? ==> r == Ok(None)
      ensures config.paginationClass.Some? ==>
        r == config.paginationClass.value.paginate(query, request)
      ensures old(paginatorCache).Some? && old(paginatorCache).value.Some? ==>
        var p := old(paginatorCache).value.value;
        p.paginateCalls == old(p.paginateCalls) + [(query, request)] && p.responseCalls == old(p.responseCalls)
      ensures old(paginatorCache).None? && paginatorCache.value.Some? ==>
        var p := paginatorCache.value.value;
        fresh(p) && p.paginateCalls == [(query, request)] && p.responseCalls == []
    {
      var paginator := Paginator();
      if paginator.None? {
        return Ok(None);
      }
      r := paginator.value.PaginateQuery(query, request);
    }

    /** `get_paginated_response`: asserts that a paginator exists, then one delegated call. */
    method GetPaginatedResponse(data: Datum) returns (r: Result<Datum>)
      requires Valid()
      modifies this`paginatorCache, CachedPaginator()
      ensures Valid() && paginatorCache.Some?
      ensures old(paginatorCache).Some? ==> paginatorCache == old(paginatorCache)
      ensures config.paginationClass.None? ==> r.Err? && r.error.AssertionFailed?
      ensures config.paginationClass.Some? ==> r == config.paginationClass.value.respond(data)
      ensures old(paginatorCache).Some? && old(paginatorCache).value.Some? ==>
        var p := old(paginatorCache).value.value;
        p.responseCalls == old(p.responseCalls) + [data] && p.paginateCalls == old(p.paginateCalls)
      ensures old(paginatorCache).None? && paginatorCache.value.Some? ==>
        var p := paginatorCache.value.value;
        fresh(p) && p.responseCalls == [data] && p.paginateCalls == []
    {
      var paginator := Paginator();
      if paginator.None? {
        return Err(AssertionFailed(""));
      }
      r := paginator.value.GetPaginatedResponse(data);
    }
  }
}

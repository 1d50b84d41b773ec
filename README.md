# Generic API views of pyramid-restful-framework, in Dafny

This project models the request-handling core of `GenericAPIView` and the
nine concrete view classes of `pyramid_restful/generics.py`, and proves what
they promise:

- `get_query` resolves the view's query. A subclass override wins. Otherwise
  the view must have a `model`, or the assertion fails.
- `filter_query` applies the filter classes in declared order, each one to
  the previous result.
- `get_object` runs the query, then the filters, then the lookup
  `lookup_col == lookup_val`, then `.one()`. Zero matches raise HTTPNotFound.
  Several matches let `MultipleResultsFound` propagate. A sole match goes
  through the permission hook.
- `get_schema` calls the schema class with the caller's arguments and with
  `strict=True`. It passes a `context` in which the caller's keys win over the
  default `{'request': request}`.
- The `paginator` property builds its paginator once and caches it.
  `paginate_query` returns `None` when there is no paginator. With no
  paginator, `get_paginated_response` fails its assertion instead.
- Each concrete view's `get`/`post`/`put`/`patch`/`delete` makes exactly one
  call to the lifecycle method of one inherited mixin. It passes the
  arguments through unchanged.

Files and modules:

- `outcomes.dfy` (`Outcomes`): `Option`, `Result`, and the `Error` kinds. Each
  error kind is named after the Python exception it stands for.
- `orm.dfy` (`Orm`): a query read as the sequence of rows it returns. A row
  maps `Entity.column` to a value. It also defines `query.filter(col == v)` as
  `Where`, `.one()` as `One`, and the lemmas giving `.one()`'s three outcomes.
- `framework.dfy` (`Framework`): the request (its parameters, and the database
  behind its session) and the Python values handed to schemas and handlers.
- `pagination.dfy` (`Pagination`): pagination classes, the `BasePagination`
  base class, and the paginator instance. Each instance records the calls made
  to it in ghost logs.
- `generics.dfy` (`Generics`): `Config` holds the class-level attributes of a
  view, including the subclass overrides of `get_query` and
  `get_schema_class`. It also holds the pure operations and their lemmas, and
  the class `View`, the request-scoped instance that caches its paginator.
- `concrete.dfy` (`ConcreteViews`): the verb dispatch table of the nine
  concrete classes. It is cross-checked against their mixin bases.

Notes on the source:

- Without a paginator, `get_paginated_response` fails an assertion. It does
  not degrade to `None`.
- `paginate_query` passes the paginator's answer on unchanged. A paginator that answers `None` therefore looks the same to the caller as having no paginator.
- `filter_query` looks only at `filter_classes`. The filter fields matter only
  inside a filter class.
- The test view `UserOverrideView` sets `lookup_column`, which no code reads
  (tests/test_generics.py:42). The default `lookup_field = 'id'` applies, and
  `DefaultConfig` has `Name("id")`.
- tests/test_generics.py:235-237 re-checks `partial_called` after `put`. The
  `put`→`update` binding rests on pyramid_restful/generics.py:189-190 and on
  tests/test_generics.py:271-281.

## Model

| member | source | states |
|---|---|---|
| `Orm.QueryAll` | pyramid_restful/generics.py:34 | `dbsession.query(model)` yields every row of the model's table, and an entity absent from the database map reads as an empty table |
| `Orm.One` | pyramid_restful/generics.py:56 | `.one()` has no row exactly for an empty result, the row exactly for a single-row result, and several rows exactly for two or more |
| `Orm.Where` | pyramid_restful/generics.py:56 | the filtered query keeps exactly the rows of the query whose lookup column holds the lookup value, and is never longer than the query |
| `Orm.WhereEmpty` | pyramid_restful/generics.py:55-58 | `.one()` sees no row (NoResultFound) exactly when no row of the query matches |
| `Orm.SoleMatchHead` | pyramid_restful/generics.py:56 | when the first row matches, it is the sole match exactly when no later row matches |
| `Orm.SoleMatchTail` | pyramid_restful/generics.py:56 | when the first row does not match, the sole match of the query is the sole match of the rest |
| `Orm.WhereSole` | pyramid_restful/generics.py:56 | `.one()` sees exactly `[row]` exactly when `row` sits at the one matching position of the query |
| `Orm.WhereSeveral` | pyramid_restful/generics.py:56 | `.one()` sees several rows exactly when two positions of the query match |
| `Pagination.BasePagination` | pyramid_restful/pagination/base.py:1-7 | both operations of the base class always fail with NotImplementedError |
| `Pagination.PaginatorInstance.constructor` | pyramid_restful/generics.py:116 | a new instance of the pagination class, with no calls recorded yet |
| `Pagination.PaginatorInstance.PaginateQuery` | pyramid_restful/pagination/base.py:3-4 | answers as its class does, and records one `(query, request)` call |
| `Pagination.PaginatorInstance.GetPaginatedResponse` | pyramid_restful/pagination/base.py:6-7 | answers as its class does, and records one `data` call |
| `Generics.DefaultConfig` | pyramid_restful/generics.py:21-25 | a bare `GenericAPIView` has no model, no schema class, no filter classes, and lookup field `id`. Its pagination class is the configured default, and it overrides neither `get_query` nor `get_schema_class` |
| `Generics.GetQuery` | pyramid_restful/generics.py:27-34 | an overriding subclass's query wins; otherwise the model's rows, and an assertion failure exactly when `model` is None |
| `Generics.ApplyFilters` | pyramid_restful/generics.py:95-104 | no filter classes leave the query unchanged, and a single filter class is applied once to the request and the query |
| `Generics.ApplyFiltersAppend` | pyramid_restful/generics.py:95-104 | applying two lists of filters in a row is applying the first list, then the second to its output |
| `Generics.ApplyFiltersFirst` | pyramid_restful/generics.py:101-102 | the first declared filter sees the original query, and the remaining filters see its output |
| `Generics.ApplyFiltersNarrow` | pyramid_restful/generics.py:95-104 | if every filter only drops rows, every row left by the filters was a row of the input |
| `Generics.ResolveLookup` | pyramid_restful/generics.py:43-53 | a string field gives column `model.field` and value `lookup_url_kwargs[field]`; an `(E, c)` tuple gives `E.c` and `lookup_url_kwargs[c]`; a missing column is an AttributeError, checked before a missing keyword (KeyError); any other shape is an assertion failure |
| `Generics.Retrieve` | pyramid_restful/generics.py:36-63 | an object comes back only when both the query and the lookup resolve. It is a row of the filtered query, its lookup column holds the lookup value, and the permission hook allows it |
| `Generics.RetrieveOutcomes` | pyramid_restful/generics.py:36-63 | `get_object` propagates query and lookup failures; over the filtered query, no match is HTTPNotFound, two matches are MultipleResultsFound, the result is `row` exactly when `row` is the sole match and the permission hook allows it, and it is Forbidden exactly when the sole match is refused by the hook |
| `Generics.RetrieveFromBase` | pyramid_restful/generics.py:36-58 | with narrowing filters, the object returned is a row of `get_query`'s result |
| `Generics.BareViewUnconfigured` | pyramid_restful/generics.py:21-34 | a bare `GenericAPIView` fails `get_query` and `get_schema_class`, so `get_object` fails with the query's assertion; its lookup field is `id` |
| `Generics.GetSchemaClass` | pyramid_restful/generics.py:65-79 | an overriding subclass's class, chosen from the request, wins; otherwise `schema_class`, and an assertion failure exactly when both are absent |
| `Generics.GetSchemaContext` | pyramid_restful/generics.py:81-85 | the default schema context has the single key `request`, bound to the current request |
| `Generics.CallerContext` | pyramid_restful/generics.py:91 | a caller without `context` contributes the empty mapping; a caller's `context` is used exactly when it is a mapping, and then its entries are used |
| `Generics.MergeContext` | pyramid_restful/generics.py:90-91 | the merged context has the keys of both, and the caller's value wins on every key it supplies |
| `Generics.View.constructor` | tests/test_generics.py:96-100 | a view instance bound to its configuration, request and URL keyword arguments, with no paginator built yet |
| `Generics.View.FilterQuery` | pyramid_restful/generics.py:95-104 | the loop returns the declared filters applied in order to the query, and the query itself when there are none |
| `Generics.View.GetObject` | pyramid_restful/generics.py:36-63 | the step-by-step lookup returns exactly what `RetrieveOutcomes` characterises |
| `Generics.View.GetSchema` | pyramid_restful/generics.py:81-93 | schema class failures propagate; on success the call carries the caller's positional and keyword arguments, `strict=True`, and a context in which the caller's keys win and `request` is the current request unless the caller supplies one; a non-mapping `context` or a caller `strict` is a TypeError |
| `Generics.View.Paginator` | pyramid_restful/generics.py:106-118 | `None` exactly when there is no pagination class, else a fresh instance on first access; the value is cached, and every later access returns the cached value |
| `Generics.View.PaginateQuery` | pyramid_restful/generics.py:120-128 | `None` without a paginator, with no call made; otherwise the paginator's answer to `(query, request)`, passed on unchanged (a page, or `None` when the paginator declines), after exactly one call, made on a freshly built paginator on first access |
| `Generics.View.GetPaginatedResponse` | pyramid_restful/generics.py:130-136 | an assertion failure without a paginator; otherwise the paginator's answer to `data` after exactly one call, made on a freshly built paginator on first access |
| `ConcreteViews.Handler` | pyramid_restful/generics.py:142-261 | every handler a concrete class defines calls a lifecycle method inherited from one of its mixin bases, and that method answers the handler's own verb |
| `ConcreteViews.InheritedActionsHandled` | pyramid_restful/generics.py:142-261 | every lifecycle method a concrete class inherits is reached through the verb it answers |
| `ConcreteViews.Handle` | pyramid_restful/generics.py:148-261 | a handler call is exactly one lifecycle call with the request, positional and keyword arguments unchanged; a verb without a handler makes no call |
| `ConcreteViews.PutAndPatchDistinct` | pyramid_restful/generics.py:189-193 | `put` always binds `update` and `patch` always binds `partial_update`, and a class has either both handlers or neither |

## Left out

- SQL, sessions, joins and the ORM's own query object are reduced to a row sequence. `isinstance(query, Query)` has no counterpart.
- Lookup values are compared as database values by plain equality. SQL type coercion (a URL string against an integer column) is not modelled.
- `getattr` on a model is modelled for column attributes only. Any other attribute counts as missing.
- `LookupField.Pair` covers two-element tuples only. Shorter tuples (IndexError) and longer ones (extra items ignored) are not modelled.
- Schema construction is a record of the call `klass(*args, **kwargs, strict=True)`. No (de)serialisation is modelled.
- `check_object_permissions` belongs to `APIView`, which is not part of this model. It is the opaque predicate `objectPermitted`, and its refusal is `Forbidden`.
- Filter classes are opaque functions of the request and the query. The view argument they also receive is dropped. `FieldFilter` is not part of this model.
- Only the `get_query` and `get_schema_class` overrides are modelled. A subclass may override any other method; those overrides are not.
- Filter classes and the `get_query`/`get_schema_class` overrides are total functions: none of them raises. The overrides see only the request, not the rest of the view (such as `lookup_url_kwargs` or other attributes).
- The mixins module is outside this model, and its lifecycle methods are opaque here. A handler's effect is modelled as the one `Invocation` it makes. Which lifecycle method each mixin contributes is read from the mixin's name, because the mixins module is not part of this model.
- A verb without a handler returns no invocation. The framework's response in that case comes from `APIView`, outside this model.
- `api_settings.default_pagination_class` is a parameter of `DefaultConfig`.
- A paginator's own page state is not modelled. The ghost call logs stand for observing how often the view delegated.
- Assertion messages copy the source's text but leave out the class name it formats into them. The bare `assert self.paginator is not None` has an empty message.
- `pyramid_restful/__init__.py` (the version constant and the settings-reload hook) is not modelled.

/**
  The nine concrete view classes. Each binds some HTTP verbs to the lifecycle
  method of one of the mixins it inherits, and passes the request and the
  positional and keyword arguments through unchanged.
 */
module ConcreteViews {
  import opened Outcomes
  import opened Framework

  datatype Verb = Get | Post | Put | Patch | Delete | Head | Options

  /** The lifecycle methods a concrete application view implements. */
  datatype Action = Create | List | Retrieve | Update | PartialUpdate | Destroy

  datatype Mixin =
    | CreateModelMixin | ListModelMixin | RetrieveModelMixin
    | UpdateModelMixin | PartialUpdateMixin | DestroyModelMixin

  datatype ViewKind =
    | CreateAPIView | ListAPIView | RetrieveAPIView | DestroyAPIView | UpdateAPIView
    | ListCreateAPIView | RetrieveUpdateAPIView | RetrieveDestroyAPIView
    | RetrieveUpdateDestroyAPIView

  /** The mixins each concrete class names among its bases, besides `GenericAPIView`. */
  function Bases(kind: ViewKind): seq<Mixin> {
    match kind
    case CreateAPIView => [CreateModelMixin]
    case ListAPIView => [ListModelMixin]
    case RetrieveAPIView => [RetrieveModelMixin]
    case DestroyAPIView => [DestroyModelMixin]
    case UpdateAPIView => [UpdateModelMixin, PartialUpdateMixin]
    case ListCreateAPIView => [ListModelMixin, CreateModelMixin]
    case RetrieveUpdateAPIView => [RetrieveModelMixin, UpdateModelMixin, PartialUpdateMixin]
    case RetrieveDestroyAPIView => [RetrieveModelMixin, DestroyModelMixin]
    case RetrieveUpdateDestroyAPIView =>
      [RetrieveModelMixin, UpdateModelMixin, PartialUpdateMixin, DestroyModelMixin]
  }

  /** The lifecycle method a mixin contributes. */
  function Provides(m: Mixin): Action {
    match m
    case CreateModelMixin => Create
    case ListModelMixin => List
    case RetrieveModelMixin => Retrieve
    case UpdateModelMixin => Update
    case PartialUpdateMixin => PartialUpdate
    case DestroyModelMixin => Destroy
  }

  /** The HTTP verb a lifecycle method answers by REST convention. */
  function VerbOf(a: Action): Verb {
    match a
    case Create => Post
    case List => Get
    case Retrieve => Get
    case Update => Put
    case PartialUpdate => Patch
    case Destroy => Delete
  }

  /** The lifecycle methods contributed by a list of mixins, in order. */
  function ProvidedBy(mixins: seq<Mixin>): seq<Action> {
    if mixins == [] then [] else [Provides(mixins[0])] + ProvidedBy(mixins[1..])
  }

  /** The lifecycle methods a concrete class inherits from its mixins. */
  function Inherited(kind: ViewKind): seq<Action> {
    ProvidedBy(Bases(kind))
  }

  /**
    The handler methods the concrete classes define (`get`, `post`, `put`,
    `patch`, `delete`) and the lifecycle method each one calls. Every handler
    calls an inherited lifecycle method that answers its own verb.
   */
  function Handler(kind: ViewKind, verb: Verb): (a: Option<Action>)
    ensures a.Some? ==> a.value in Inherited(kind) && VerbOf(a.value) == verb
  {
    match (kind, verb)
    case (CreateAPIView, Post) => Some(Create)
    case (ListAPIView, Get) => Some(List)
    case (RetrieveAPIView, Get) => Some(Retrieve)
    case (DestroyAPIView, Delete) => Some(Destroy)
    case (UpdateAPIView, Put) => Some(Update)
    case (UpdateAPIView, Patch) => Some(PartialUpdate)
    case (ListCreateAPIView, Get) => Some(List)
    case (ListCreateAPIView, Post) => Some(Create)
    case (RetrieveUpdateAPIView, Get) => Some(Retrieve)
    case (RetrieveUpdateAPIView, Put) => Some(Update)
    case (RetrieveUpdateAPIView, Patch) => Some(PartialUpdate)
    case (RetrieveDestroyAPIView, Get) => Some(Retrieve)
    case (RetrieveDestroyAPIView, Delete) => Some(Destroy)
    case (RetrieveUpdateDestroyAPIView, Get) => Some(Retrieve)
    case (RetrieveUpdateDestroyAPIView, Put) => Some(Update)
    case (RetrieveUpdateDestroyAPIView, Patch) => Some(PartialUpdate)
    case (RetrieveUpdateDestroyAPIView, Delete) => Some(Destroy)
    case _ => None
  }

  /** The converse: every lifecycle method a class inherits is reachable through its verb. */
  lemma InheritedActionsHandled(kind: ViewKind, a: Action)
    requires a in Inherited(kind)
    ensures Handler(kind, VerbOf(a)) == Some(a)
  {
  }

  /** One call of a lifecycle method: `self.<action>(request, *args, **kwargs)`. */
  datatype Invocation = Invocation(action: Action, request: Datum, args: seq<Datum>, kwargs: map<string, Datum>)

  /**
    A handler call `view.<verb>(request, *args, **kwargs)`: exactly one lifecycle
    call with the same arguments, or no handler at all for a verb outside the table.
   */
  function Handle(kind: ViewKind, verb: Verb, request: Datum, args: seq<Datum>, kwargs: map<string, Datum>): (r: Option<Invocation>)
    ensures r.Some? <==> Handler(kind, verb).Some?
    ensures r.Some? ==> r.value.action == Handler(kind, verb).value
    ensures r.Some? ==> r.value.request == request && r.value.args == args && r.value.kwargs == kwargs
  {
    match Handler(kind, verb)
    case None => None
    case Some(action) => Some(Invocation(action, request, args, kwargs))
  }

  /** `put` and `patch` are separate bindings wherever they exist: `update` and `partial_update`. */
  lemma PutAndPatchDistinct(kind: ViewKind)
    ensures Handler(kind, Put).Some? ==> Handler(kind, Put) == Some(Update)
    ensures Handler(kind, Patch).Some? ==> Handler(kind, Patch) == Some(PartialUpdate)
    ensures Handler(kind, Put).Some? <==> Handler(kind, Patch).Some?
  {
  }
}

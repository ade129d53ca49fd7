/** The request-time half of the authorization layer: relaying an error already
    recorded on the request context, and choosing which caller-supplied
    access-control (ACL) factory, if any, contributes query constraints to an
    operation. */
module Auth {
  import opened Options

  // ---------------------------------------------------------------------------
  // Request context
  // ---------------------------------------------------------------------------

  /** The incoming HTTP request as seen through `context.req`. */
  datatype Request<E> = Request(error: Option<E>)

  /** The resolver context. `E` is the type of recorded errors, `F` the type of
      the opaque ACL provider entries (the objects carrying `aclFactory`), `C`
      everything else the context carries (an authenticated user, say), which
      only the ACL factories look at. A kind missing from `accessControl` is a
      provider with no entry for it; an absent provider altogether is the
      empty map. */
  datatype Context<E, F, C> = Context(
    req: Option<Request<E>>,
    error: Option<E>,
    accessControl: map<AclKind, F>,
    rest: C)

  /** The request-scoped error: `context.req.error`, when context, request and
      error are all present. */
  function RequestScopedError<E, F, C>(context: Option<Context<E, F, C>>): Option<E>
  {
    match context
    case None => None
    case Some(c) =>
      match c.req
      case None => None
      case Some(q) => q.error
  }

  /** The context-scoped error: `context.error`, when context and error are present. */
  function ContextScopedError<E, F, C>(context: Option<Context<E, F, C>>): Option<E>
  {
    match context
    case None => None
    case Some(c) => c.error
  }

  /** The places an error may have been recorded, in the order they are consulted. */
  function ErrorSources<E, F, C>(context: Option<Context<E, F, C>>): seq<Option<E>>
  {
    [RequestScopedError(context), ContextScopedError(context)]
  }

  /** `checkRequestError`: the request-scoped error if any, else the
      context-scoped error if any, else `None` (the source's `false`). Never
      fails, whatever is missing from the context. */
  function CheckRequestError<E, F, C>(context: Option<Context<E, F, C>>): (r: Option<E>)
    // the request-scoped error wins whatever the context-scoped one holds
    ensures RequestScopedError(context).Some? ==> r == RequestScopedError(context)
    // the context-scoped error is reported only when no request error is recorded
    ensures RequestScopedError(context).None? ==> r == ContextScopedError(context)
    // no error is reported exactly when neither place holds one
    ensures r.None? <==> RequestScopedError(context).None? && ContextScopedError(context).None?
    // an absent context never reports an error
    ensures context.None? ==> r.None?
  {
    if context.Some? && context.value.req.Some? && context.value.req.value.error.Some? then
      context.value.req.value.error
    else if context.Some? && context.value.error.Some? then
      context.value.error
    else
      None
  }

  /** `checkRequestError` reports the first recorded error in priority order. */
  lemma CheckRequestErrorIsFirstRecorded<E, F, C>(context: Option<Context<E, F, C>>)
    ensures CheckRequestError(context) == FirstSome(ErrorSources(context))
  {
  }

  /** Replacing the context-scoped error changes nothing while a request-scoped
      error is recorded. */
  lemma RequestErrorShadowsContextError<E, F, C>(c: Context<E, F, C>, other: Option<E>)
    requires c.req.Some? && c.req.value.error.Some?
    ensures CheckRequestError(Some(c.(error := other))) == c.req.value.error
    ensures CheckRequestError(Some(c.(error := other))) == CheckRequestError(Some(c))
  {
  }

  // ---------------------------------------------------------------------------
  // Operation classification
  // ---------------------------------------------------------------------------

  /** The entries of `context.AccessControl`, named after their property keys:
      `createMutation`, `updateMutation`, `deleteMutation`, `addRelationship`,
      `removeRelationship`, `nodeQuery`. */
  datatype AclKind =
    | CreateMutation
    | UpdateMutation
    | DeleteMutation
    | AddRelationship
    | RemoveRelationship
    | NodeQuery

  /** What the classification predicates report about one operation. Their
      definitions live outside this layer, so they are inputs here. */
  datatype Shape = Shape(
    isMutation: bool,
    hasMutationCypher: bool,
    hasQueryCypher: bool,
    isCreate: bool,
    isUpdate: bool,
    isDelete: bool,
    isAdd: bool,
    isRemove: bool)

  /** The resolver's `resolveInfo`: its classification, plus everything else it
      carries (`P`), which only the ACL factories look at. */
  datatype ResolveInfo<P> = ResolveInfo(shape: Shape, rest: P)

  /** The mutation entries in the order their predicates are tried. */
  const MutationOrder: seq<AclKind> :=
    [CreateMutation, UpdateMutation, DeleteMutation, AddRelationship, RemoveRelationship]

  /** The classification predicate guarding `kind` holds of `shape`. */
  predicate Matches(shape: Shape, kind: AclKind)
  {
    match kind
    case CreateMutation => shape.isCreate
    case UpdateMutation => shape.isUpdate
    case DeleteMutation => shape.isDelete
    case AddRelationship => shape.isAdd
    case RemoveRelationship => shape.isRemove
    case NodeQuery => false
  }

  /** Position `i` of `MutationOrder` is the first whose predicate holds. */
  ghost predicate FirstMatchAt(shape: Shape, i: int)
  {
    && 0 <= i < |MutationOrder|
    && Matches(shape, MutationOrder[i])
    && forall j :: 0 <= j < i ==> !Matches(shape, MutationOrder[j])
  }

  /** Which factory an operation is dispatched to, if any. */
  datatype Decision = NoAcl | Use(kind: AclKind)

  /** The branch structure of `getAccessControlPredicates`, without the call. */
  function SelectFactory(shape: Shape): (d: Decision)
    // a custom cypher mutation bypasses ACL even when a mutation predicate holds
    ensures shape.isMutation && shape.hasMutationCypher ==> d == NoAcl
    // mutations never reach the query factory, queries only ever reach it
    ensures shape.isMutation ==> d != Use(NodeQuery)
    ensures !shape.isMutation ==> (d == Use(NodeQuery) <==> !shape.hasQueryCypher)
    ensures !shape.isMutation ==> (d == NoAcl <==> shape.hasQueryCypher)
    // a mutation only reaches a factory whose predicate holds
    ensures shape.isMutation && d.Use? ==> d.kind in MutationOrder && Matches(shape, d.kind)
  {
    if shape.isMutation then
      if shape.hasMutationCypher then NoAcl
      else if shape.isCreate then Use(CreateMutation)
      else if shape.isUpdate then Use(UpdateMutation)
      else if shape.isDelete then Use(DeleteMutation)
      else if shape.isAdd then Use(AddRelationship)
      else if shape.isRemove then Use(RemoveRelationship)
      else NoAcl
    else
      if shape.hasQueryCypher then NoAcl
      else Use(NodeQuery)
  }

  /** An ordinary mutation goes to the factory of its first matching predicate. */
  lemma SelectFactoryPicksFirstMatch(shape: Shape, i: int)
    requires shape.isMutation && !shape.hasMutationCypher
    requires FirstMatchAt(shape, i)
    ensures SelectFactory(shape) == Use(MutationOrder[i])
  {
  }

  /** An ordinary mutation gets no ACL exactly when none of the mutation
      predicates holds. */
  lemma SelectFactoryNoMatch(shape: Shape)
    requires shape.isMutation && !shape.hasMutationCypher
    ensures SelectFactory(shape) == NoAcl <==> forall k :: k in MutationOrder ==> !Matches(shape, k)
  {
  }

  /** The mutation predicates as a table: entry `i` names `MutationOrder[i]`
      when its predicate holds. */
  function MutationRules(shape: Shape): seq<Option<AclKind>>
  {
    seq(|MutationOrder|, i requires 0 <= i < |MutationOrder| =>
      if Matches(shape, MutationOrder[i]) then Some(MutationOrder[i]) else None)
  }

  /** The table lookup's answer as a dispatch decision. */
  function ToDecision(k: Option<AclKind>): Decision
  {
    match k
    case None => NoAcl
    case Some(kind) => Use(kind)
  }

  /** The `else if` chain over mutation predicates is a first-match lookup in
      the table of predicates in their fixed order. */
  lemma SelectFactoryIsFirstMatch(shape: Shape)
    requires shape.isMutation && !shape.hasMutationCypher
    ensures SelectFactory(shape) == ToDecision(FirstSome(MutationRules(shape)))
  {
    var rules := MutationRules(shape);
    if shape.isCreate {
      assert FirstPresentAt(rules, 0);
    } else if shape.isUpdate {
      assert FirstPresentAt(rules, 1);
    } else if shape.isDelete {
      assert FirstPresentAt(rules, 2);
    } else if shape.isAdd {
      assert FirstPresentAt(rules, 3);
    } else if shape.isRemove {
      assert FirstPresentAt(rules, 4);
    } else {
      assert forall i :: 0 <= i < |rules| ==> rules[i].None?;
    }
  }

  /** Predicates after the first matching one are never consulted: two
      ordinary mutations that agree up to and including their first matching
      predicate are dispatched alike. */
  lemma LaterPredicatesIgnored(a: Shape, b: Shape, i: int)
    requires a.isMutation && !a.hasMutationCypher
    requires b.isMutation && !b.hasMutationCypher
    requires FirstMatchAt(a, i)
    requires forall j :: 0 <= j <= i ==> (Matches(a, MutationOrder[j]) <==> Matches(b, MutationOrder[j]))
    ensures SelectFactory(a) == SelectFactory(b) == Use(MutationOrder[i])
  {
  }

  // ---------------------------------------------------------------------------
  // Dispatch
  // ---------------------------------------------------------------------------

  /** What `getAccessControlPredicates` returns: `false`, or whatever the chosen
      factory returned. The source returns the factory's value untagged, so a
      factory returning `false` itself looks like `False` there; the tag keeps
      the two apart here. */
  datatype AclOutcome<R> = False | Predicates(value: R)

  /** The caller's obligation: when a factory is chosen, the context and its
      entry for that kind exist (the source dereferences both unguarded). */
  predicate CanDispatch<E, F, C>(context: Option<Context<E, F, C>>, shape: Shape)
  {
    match SelectFactory(shape)
    case NoAcl => true
    case Use(kind) => context.Some? && kind in context.value.accessControl
  }

  /** `getAccessControlPredicates`. `invoke(f, c, info)` stands for calling
      `f.aclFactory(c, info)`, the caller-supplied factory. */
  function GetAccessControlPredicates<E, F, C, P, R>(
    context: Option<Context<E, F, C>>,
    info: ResolveInfo<P>,
    invoke: (F, Context<E, F, C>, ResolveInfo<P>) -> R): (r: AclOutcome<R>)
    requires CanDispatch(context, info.shape)
    // `false` exactly when no factory applies
    ensures r.False? <==> SelectFactory(info.shape).NoAcl?
    // otherwise the chosen factory's result, called on (context, resolveInfo), unchanged
    ensures r.Predicates? ==>
      var kind := SelectFactory(info.shape).kind;
      r.value == invoke(context.value.accessControl[kind], context.value, info)
  {
    var shape := info.shape;
    if shape.isMutation then
      if shape.hasMutationCypher then False
      else if shape.isCreate then Call(context, CreateMutation, info, invoke)
      else if shape.isUpdate then Call(context, UpdateMutation, info, invoke)
      else if shape.isDelete then Call(context, DeleteMutation, info, invoke)
      else if shape.isAdd then Call(context, AddRelationship, info, invoke)
      else if shape.isRemove then Call(context, RemoveRelationship, info, invoke)
      else False
    else
      if shape.hasQueryCypher then False
      else Call(context, NodeQuery, info, invoke)
  }

  /** `context.AccessControl.<kind>.aclFactory(context, resolveInfo)`. */
  function Call<E, F, C, P, R>(
    context: Option<Context<E, F, C>>,
    kind: AclKind,
    info: ResolveInfo<P>,
    invoke: (F, Context<E, F, C>, ResolveInfo<P>) -> R): AclOutcome<R>
    requires context.Some? && kind in context.value.accessControl
  {
    Predicates(invoke(context.value.accessControl[kind], context.value, info))
  }

  /** Whether a factory is called depends only on the classification: neither
      the context nor the factories decide it. */
  lemma OutcomeIndependentOfProvider<E, F, C, P, R>(
    c1: Option<Context<E, F, C>>, c2: Option<Context<E, F, C>>,
    info: ResolveInfo<P>,
    invoke1: (F, Context<E, F, C>, ResolveInfo<P>) -> R,
    invoke2: (F, Context<E, F, C>, ResolveInfo<P>) -> R)
    requires CanDispatch(c1, info.shape) && CanDispatch(c2, info.shape)
    ensures GetAccessControlPredicates(c1, info, invoke1).False?
        <==> GetAccessControlPredicates(c2, info, invoke2).False?
  {
  }
}

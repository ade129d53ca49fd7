# Request-time authorization dispatch (neo4j-graphql-js `src/auth.js`)

This project models the two request-time functions of the authorization layer
in `src/auth.js` of neo4j-graphql-js:

- `checkRequestError` relays an error that was already recorded on the resolver
  context. It returns the request-scoped error (`context.req.error`) if there is
  one, otherwise the context-scoped error (`context.error`), otherwise `false`.
- `getAccessControlPredicates` decides whether a caller-supplied access-control
  factory adds query constraints to an operation. If one does, it picks exactly
  one factory from `context.AccessControl`, calls it with
  `(context, resolveInfo)`, and returns its result unchanged. Otherwise it
  returns `false`. A custom Cypher directive turns ACL off. Mutation predicates
  are tried in the fixed order create, update, delete, add relationship,
  remove relationship. Every query without a custom Cypher directive goes to
  `nodeQuery`.

The files:

- `options.dfy` (module `Options`): `Option` and `FirstSome`, the "first present
  value in priority order" selection. It serves as the independent reference
  definition for both functions.
- `auth.dfy` (module `Auth`): the context, the classification record, the ACL
  kinds, `CheckRequestError`, `SelectFactory` (the branch structure),
  `GetAccessControlPredicates` (the dispatch including the call), and the
  lemmas connecting them to the reference definitions.

Modelling choices:

- JavaScript truthiness becomes present / absent (`Option`). The source's
  `false` results become `None` (`CheckRequestError`) and `False`
  (`GetAccessControlPredicates`).
- The seven classification predicates imported from `./utils`
  (`isCreateMutation`, `isUpdateMutation`, `isDeleteMutation`, `isAddMutation`,
  `isRemoveMutation`, `getMutationCypherDirective`, `getQueryCypherDirective`)
  are not part of this model, and where `isMutation` is defined is not shown at
  all. The answers of all eight for one operation are the inputs in the `Shape`
  record carried by `ResolveInfo`.
- An ACL factory is foreign code. The entries of `context.AccessControl` are
  opaque values of a type parameter `F`. The rest of the context, which a
  factory may read, is an opaque field of type `C`. Calling an entry's `aclFactory` is the
  function parameter `invoke(entry, context, resolveInfo)`, and its result has
  an opaque type `R`. (A Dafny datatype cannot hold functions that take the
  datatype itself, so the factory cannot live inside `Context` as a function.)
- The source dereferences `context.AccessControl.<kind>` without a guard, so a
  missing context, provider or entry for the chosen kind is a thrown
  `TypeError`. The model states this as the precondition `CanDispatch`. It
  covers the chosen kind only. Paths that return `false` never touch the
  context and carry no obligation.

## Model

| member | source | states |
|---|---|---|
| Options.FirstSome | src/auth.js:17-23 | The first present entry of an ordered list of candidates, or nothing when none is present. This is the reference definition of an `if / else if / else` chain tried in order. |
| Auth.CheckRequestError | src/auth.js:16-24 | A recorded request-scoped error is returned whatever the context-scoped error holds. Without one, the context-scoped error is returned. No error is reported exactly when neither is recorded, including when the context itself is absent. |
| Auth.CheckRequestErrorIsFirstRecorded | src/auth.js:16-24 | The result equals the first recorded error in the priority order request-scoped, then context-scoped. |
| Auth.RequestErrorShadowsContextError | src/auth.js:17-18 | While `context.req.error` is set, replacing `context.error` with anything leaves the result unchanged. |
| Auth.SelectFactory | src/auth.js:31-63 | A mutation with a custom Cypher directive gets no ACL. Mutations never reach `nodeQuery`, and a mutation's chosen factory is one whose predicate holds. A query goes to `nodeQuery` exactly when it has no custom Cypher directive, and otherwise gets no ACL. |
| Auth.SelectFactoryPicksFirstMatch | src/auth.js:36-50 | An ordinary mutation goes to the factory whose predicate is the first to hold in the order create, update, delete, add, remove. |
| Auth.SelectFactoryNoMatch | src/auth.js:36-53 | An ordinary mutation gets no ACL exactly when none of the five mutation predicates holds. |
| Auth.SelectFactoryIsFirstMatch | src/auth.js:36-53 | The mutation branch equals a first-match lookup in the table of (predicate, factory) pairs in their fixed order. |
| Auth.LaterPredicatesIgnored | src/auth.js:36-50 | Two ordinary mutations that agree on every predicate up to and including the first one that holds are dispatched to the same factory. |
| Auth.GetAccessControlPredicates | src/auth.js:31-64 | The result is the `false` marker exactly when no factory is called (the marker is tagged; see "Left out"). Otherwise it is the chosen entry's factory result on `(context, resolveInfo)`, returned unchanged. The caller must supply the context and the chosen entry; no fail-open default exists. |
| Auth.OutcomeIndependentOfProvider | src/auth.js:31-64 | Whether a factory is called depends only on the classification, never on the context, the provider or the factories. |

## Left out

- `isMutation` is called at src/auth.js:32 but is not among the names imported at src/auth.js:1-9. As written, every call of `getAccessControlPredicates` would throw a `ReferenceError` there. The model treats `isMutation` as one more classification input, as the imported predicates are, and does not model the `ReferenceError`.
- The classification predicates of `src/utils.js`: that file is not part of this model, so their answers are inputs.
- The behaviour of ACL factories, and the Cypher fragments they return: caller-supplied code. Results are opaque, and a factory that throws is not modelled.
- JavaScript truthiness of error values (`0`, `""`, `NaN` recorded as an error would count as absent): an error is modelled only as present or absent.
- Auth.GetAccessControlPredicates: a missing context, `AccessControl` provider or entry for the chosen kind throws in the source. The model makes these cases a precondition instead of modelling the exception. The source has no fail-open default for a missing provider or entry.
- Auth.GetAccessControlPredicates: the result is tagged (`False` or `Predicates(v)`), while the source returns the factory's value untagged (src/auth.js:38,41,44,47,50,61). So in the source a factory that itself returns `false` (or `undefined`, for a caller that tests truthiness) cannot be told apart from the no-ACL `false` of src/auth.js:35,53,58. The model's "`False` exactly when no factory is called" holds only because of the tag.
- Auth.GetAccessControlPredicates: an entry whose `aclFactory` is not callable throws in the source; `invoke` always returns a value.
- Directive declaration and registration (`isAuthenticated`, `hasRole`, `hasScope`), scope-string generation and the `Role` enumeration check: they belong to other parts of the repository, not to `src/auth.js`.
- `test/helpers/testSchema.js`: a GraphQL schema fixture with no logic.

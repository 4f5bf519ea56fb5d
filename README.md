# Threaded comments API: the request handlers and the allow-all policy

This project models the request-handling core of a small comment service.
Authenticated users list, create, fetch, update and soft-delete threaded
comments. Each comment is attached to a target named by a content type and an
object key. Two views serve the API:

- the collection view (`CommentView`) lists and creates the comments of one target;
- the detail view (`CommentDetailView`) gets, updates and deletes one comment by id.

Each handler is a linear pipeline with early exits, in this order:

1. a permission gate: 403 `{"error": "Permission denied"}`;
2. a lookup of the target or the comment: 404;
3. sanitising and validating the body: 400 with the validator's message;
4. the write: 200, 204 or 304.

The permission policy is a pair of predicate groups. The root group answers
"may list" and "may create". The detail group answers "may get", "may
update" and "may delete". A registry holds the pair. `public/permissions.py`
supplies the allow-all instance, under which no handler answers 403.

Files:

- `types.dfy` (module `CommentTypes`): comments, targets, parsed JSON bodies,
  responses, the error envelope and the collaborators.
- `store.dfy` (module `CommentStore`): the comment table as a class
  (`CommentStore`), holding `map<CommentId, Comment>` and the next id. Also its
  invariant, the queries the views run, and lemmas on how writes change them.
- `permissions.dfy` (module `Permissions`): the two policy groups and the registry.
- `views.dfy` (module `CommentViews`): the two view classes and their five handlers.
- `public_permissions.dfy` (module `PublicPermissions`): the allow-all policy and
  `InitPermissions`.
- `scenarios.dfy` (module `CommentScenarios`): request sequences, with what a
  caller can conclude from the handlers' contracts.

The views call code that is not part of this model. Each such collaborator is
a function-valued field of the `Collaborators` value that every view holds:

- bleach's `clean` and `linkify`;
- `Comment.validate_json`, which returns `(is_valid, err)`;
- `get_content_type_and_target_or_none`, which returns the pair of a content
  type and a target, or nothing. The model returns a `Resolved` value that
  holds both: the create handler stores its content type, and the queries
  filter on its target.

`_sanitize_and_linkify` is `SanitizeAndLinkify`: `clean` first, then
`linkify`. `_build_error_response` is `ErrorResponse`. The five handlers
return its fixed instances `PERMISSION_DENIED`, `BAD_TARGET` and
`BAD_PARENT`, or a validator message with status 400. A missing comment in the
detail view is the framework's own 404 page (`NOT_FOUND`), not the JSON
envelope, because `get_object_or_404` raises it.

Details of the handlers that the model keeps:

- Delete checks `can_get_comment`, not `can_delete_comment`
  (`comments/views.py:158`). `CommentScenarios.DeleteWithoutDeletePermission`
  shows the result: a policy that allows get but refuses delete still lets a
  delete through.
- The list query sets no order (`comments/views.py:46`), so the listing is a set.
- Sanitising is not claimed to be idempotent, because nothing in this code
  states it.
- A new comment stores the resolved content type but the object key exactly
  as written in the URL (`comments/views.py:96-97`). The parent lookup and the
  listing instead filter on the resolved target. So the store invariant
  states only that a parent is an earlier row of the table.
  `CreateThenList` assumes a resolver whose target carries the content type
  it returns and the URL's key. Under that assumption, the new comment joins
  its target's next listing.
- An inactive parent of the same target is accepted. `FindFor` filters on the
  target and not on the active flag.
- The detail lookup ignores the URL's content type and object key
  (`comments/views.py:110`): it finds any active comment by id.

## Model

| member | source | states |
|---|---|---|
| `CommentTypes.SanitizeAndLinkify` | comments/views.py:17-19 | the text is passed through `clean` first and the result through `linkify` |
| `CommentTypes.ErrorResponse` | comments/views.py:22-23 | the response has the given status and an error envelope carrying exactly the given message |
| `CommentTypes.CommentValue` | comments/views.py:81 | `body.get("comment", "")`: the empty text when the field is absent, otherwise the field's string |
| `CommentTypes.ParentId` | comments/views.py:89 | `body.get("parentID", None)`: no parent exactly when the field is absent or JSON null, otherwise the field's integer |
| `CommentTypes.ParentSurvivesSanitizing` | comments/views.py:81-89 | rewriting the `comment` field leaves the parent reference that the create handler reads afterwards exactly as sent |
| `CommentTypes.SanitizedBody` | comments/views.py:81 | the body's `comment` field becomes the sanitised text, with an absent field read as `""`; every other field is kept unchanged |
| `CommentStore.CommentsFor` | comments/views.py:91 | `for_model(target)` holds exactly the rows of the table attached to the target, active or not |
| `CommentStore.ActiveCommentsFor` | comments/views.py:45-46 | the list query set holds exactly the active rows attached to the target, a subset of `for_model(target)` |
| `CommentStore.FindForIsParentQuery` | comments/views.py:91 | the parent lookup returns a comment exactly when that comment is in `for_model(target)` and has the id; being inactive does not exclude it |
| `CommentStore.FindActiveIsListed` | comments/views.py:109-110 | the detail lookup returns a comment exactly when it has the id and is in the active query set of its own target, whichever target the URL names |
| `CommentStore.ListingAfterInsert` | comments/views.py:95-101 | inserting a new active comment adds exactly that comment to its own target's listing; every other target's listing is unchanged |
| `CommentStore.ListingAfterSave` | comments/views.py:146-147 | saving a row with new text or a new flag swaps the old row for the new one in its target's listing, and drops it when it becomes inactive; other listings are unchanged |
| `CommentStore.CreateAddsOne` | comments/views.py:95-102 | a create grows its target's listing by exactly one comment, and the table by exactly one row |
| `CommentStore.DeleteHidesOne` | comments/views.py:161-163 | a soft delete shrinks the target's listing by exactly one comment; the table keeps every key |
| `CommentStore.DeactivatedIsHidden` | comments/views.py:162-163 | after a soft delete the detail lookup no longer finds the id; the row remains with every other field unchanged; lookups of other ids are unaffected |
| `CommentStore.CommentStore.Create` | comments/views.py:95-101 | the new row gets a fresh id; it is active, with the given content type, object key, author, parent and text; old rows stay; the invariant (ids are keys, ids are below the next id, parents are earlier rows) is kept |
| `CommentStore.CommentStore.Save` | comments/views.py:146-147 | saving a fetched row whose text or active flag changed replaces only that row and keeps the invariant |
| `Permissions.Registry.SetPermissions` | public/permissions.py:25 | the registry afterwards holds exactly the given root and detail policies |
| `CommentViews.CommentView.Get` | comments/views.py:48-63 | 403 exactly when listing is not permitted, before the target is resolved; otherwise 404 "Bad content type or object id" when the target does not resolve, else 200 with exactly the target's active comments; the table is only read |
| `CommentViews.CommentView.Post` | comments/views.py:65-102 | 403 exactly when create is not permitted; then 404 for an unresolved target; then the sanitised body is validated, failing with 400 and the validator's message; then a `parentID` not among the target's comments gives 404 "Bad parent"; otherwise 200 with the one new row: author is the requester, content type from the resolver, object key from the URL, the checked parent, the sanitised text, active; no response but 200 changes the table |
| `CommentViews.CommentDetailView.Get` | comments/views.py:112-122 | 403 exactly when get is not permitted; otherwise 200 with the active comment of that id, or the framework's 404 when the id is missing or inactive |
| `CommentViews.CommentDetailView.Put` | comments/views.py:124-150 | 403 exactly when update is not permitted; then 404 for a missing or inactive id; then the raw body is validated (400 with the message); then the text is sanitised: empty gives 304 and no write, non-empty replaces the text of that one row and returns it with 200; no response but 200 changes the table |
| `CommentViews.CommentDetailView.Delete` | comments/views.py:152-164 | gated by the get predicate: 403 exactly when get is not permitted; then 404 for a missing or inactive id; otherwise 204, with only that row's active flag set to false; no other response changes the table |
| `PublicPermissions.CanListComments` | public/permissions.py:5-6 | `Root.can_list_comments` allows every request, content type and object key |
| `PublicPermissions.CanCreateComment` | public/permissions.py:8-9 | `Root.can_create_comment` allows every input |
| `PublicPermissions.CanGetComment` | public/permissions.py:13-14 | `Detail.can_get_comment` allows every input |
| `PublicPermissions.CanUpdateComment` | public/permissions.py:16-17 | `Detail.can_update_comment` allows every input |
| `PublicPermissions.CanDeleteComment` | public/permissions.py:19-20 | `Detail.can_delete_comment` allows every input |
| `PublicPermissions.Root` | public/permissions.py:4-9 | the `Root` instance permits listing and creating for every input |
| `PublicPermissions.Detail` | public/permissions.py:12-20 | the `Detail` instance permits get, update and delete for every input |
| `PublicPermissions.InitPermissions` | public/permissions.py:23-25 | the registry afterwards holds the `Root` and `Detail` instances |
| `PublicPermissions.NoHandlerForbidsAfterInit` | public/permissions.py:23-25 | after `init_permissions`, none of the five handlers answers 403, for any request, target and id, and for any body the handlers accept past their gate and lookup |
| `CommentScenarios.GetIgnoresUrlTarget` | comments/views.py:109-121 | when get is permitted, two gets of one id under different content types and object keys give the same answer, a 200 or the 404 page |
| `CommentScenarios.DeleteThenGet` | comments/views.py:158-164 | after a 204 delete, a get of the same id is a 404, while the row stays in the table, inactive, with its text and other fields unchanged |
| `CommentScenarios.DeleteWithoutDeletePermission` | comments/views.py:158-159 | a request that may get but not delete a comment still deletes it with 204 |
| `CommentScenarios.EmptyUpdateThenGet` | comments/views.py:144-150 | after a 304 update, a get returns the comment exactly as it was before |
| `CommentScenarios.CreateThenList` | comments/views.py:95-102 | with a resolver whose target carries its content type and the URL's key, a created comment appears in the next listing beside exactly the comments listed before, and the listing grows by one |
| `CommentScenarios.DeleteThenList` | comments/views.py:161-164 | after a 204 delete, the next listing is the old listing without the deleted row, one shorter when the row belonged to that target; the table keeps every key |

## Left out

- Django plumbing is not modelled: view dispatch, the `login_required` wrapper
  and `method_decorator`. Handlers receive an already-authenticated `Request`.
- `JSONResponse` and `ExtendedEncoder` are not modelled. A response is a status
  plus a payload value, not serialised JSON.
- `json.loads` is not modelled. The code does not catch its failures, so
  handlers take the parsed body.
- A `comment` field that is not a JSON string makes bleach raise. That error is
  not caught, so it is an uncaught server error, which the model does not
  represent. Handlers require a string or an absent field, but only for
  requests that reach the sanitiser. For create that means the permission
  gate passed and the target resolved. For update it means the gate passed,
  the comment was found and validation passed.
- A `parentID` that is not null and not an integer makes the ORM raise or
  coerce. Create requires it to be absent, null or an integer, but only for
  requests that passed the gate, the target lookup and validation.
- `PublicPermissions.NoHandlerForbidsAfterInit`: the bodies must meet the two
  requirements above, so a body that would make bleach or the ORM raise after
  the gate is not covered. Such a request ends in a server error, not a 403.
- bleach's `clean` and `linkify`, `Comment.validate_json` and
  `get_content_type_and_target_or_none` are not part of this model. They are
  uninterpreted function parameters, and nothing is claimed about them.
- The ORM is not part of this model. The managers `for_model` and `active` and
  `get_object_or_404` are functions over the table's map. Ids come from a
  counter.
- Timestamps are not modelled, because no handler reads them.
- Database atomicity and concurrent requests are not modelled; the model is
  sequential.
- `comments.permissions` is not part of this model. The registry is a class
  with two fields, and `get_registry` is replaced by passing the registry.
- Views receive their policy when constructed, instead of reading it from the
  registry when the class is defined.
- `CommentViews.CommentView.Get`: the listing is a set, so it says nothing
  about order, because the code sets none.

/** The two views of the comment API. Every handler is a linear pipeline
    with early exits: permission gate (403), target or comment lookup (404),
    sanitising and validation (400), then the write (200, 204 or 304). */
module CommentViews {
  import opened CommentTypes
  import opened CommentStore
  import opened Permissions

  /** The collection view: list and create the comments of one target. */
  class CommentView {
    const perms: RootPerms
    const store: CommentStore
    const env: Collaborators

    constructor(perms: RootPerms, store: CommentStore, env: Collaborators)
      ensures this.perms == perms && this.store == store && this.env == env
    {
      this.perms := perms;
      this.store := store;
      this.env := env;
    }

    /** List: the active comments of the resolved target. Reads the table only. */
    method Get(request: Request, contentType: ContentTypeId, objectPk: ObjectPk) returns (resp: Response)
      requires store.Valid()
      ensures resp.status == 403 <==> !perms.canListComments(request, contentType, objectPk)
      ensures !perms.canListComments(request, contentType, objectPk) ==> resp == PERMISSION_DENIED
      ensures perms.canListComments(request, contentType, objectPk) ==>
                match env.resolve(contentType, objectPk)
                case None => resp == BAD_TARGET
                case Some(resolved) => resp == Response(200, CommentList(ActiveCommentsFor(store.comments, resolved.target)))
    {
      if !perms.canListComments(request, contentType, objectPk) {
        return PERMISSION_DENIED;
      }
      var target := env.resolve(contentType, objectPk);
      if target.None? {
        return BAD_TARGET;
      }
      return Response(200, CommentList(ActiveCommentsFor(store.comments, target.value.target)));
    }

    /** Create: sanitise the text first, then validate the sanitised body,
        then check the optional parent within the same target, then insert. */
    method Post(request: Request, contentType: ContentTypeId, objectPk: ObjectPk, body: Body)
      returns (resp: Response)
      requires store.Valid()
      requires perms.canCreateComment(request, contentType, objectPk) && env.resolve(contentType, objectPk).Some? ==>
                 && HasTextComment(body)
                 && (env.validate(SanitizedBody(env, body)).valid ==> HasParentReference(body))
      modifies store
      ensures store.Valid()
      ensures resp.status == 403 <==> !perms.canCreateComment(request, contentType, objectPk)
      ensures !perms.canCreateComment(request, contentType, objectPk) ==> resp == PERMISSION_DENIED
      ensures perms.canCreateComment(request, contentType, objectPk) ==>
                match env.resolve(contentType, objectPk)
                case None => resp == BAD_TARGET
                case Some(resolved) =>
                  var v := env.validate(SanitizedBody(env, body));
                  && (!v.valid ==> resp == ErrorResponse(v.error, 400))
                  && (v.valid ==>
                        var parent := ParentId(body);
                        if parent.Some? && FindFor(old(store.comments), resolved.target, parent.value).None?
                        then resp == BAD_PARENT
                        else resp.status == 200)
      ensures resp.status != 200 ==> store.comments == old(store.comments) && store.nextId == old(store.nextId)
      ensures resp.status == 200 ==>
                && perms.canCreateComment(request, contentType, objectPk)
                && env.resolve(contentType, objectPk).Some?
                && env.validate(SanitizedBody(env, body)).valid
                && resp.payload.CommentBody?
                && var resolved, c := env.resolve(contentType, objectPk).value, resp.payload.comment;
                && c.id !in old(store.comments)
                && store.comments == old(store.comments)[c.id := c]
                && c.contentType == resolved.contentType
                && c.objectPk == objectPk
                && c.user == request.user
                && c.parent == ParentId(body)
                && (c.parent.Some? ==> FindFor(old(store.comments), resolved.target, c.parent.value).Some?)
                && c.text == SanitizeAndLinkify(env, CommentValue(body))
                && c.active
    {
      if !perms.canCreateComment(request, contentType, objectPk) {
        return PERMISSION_DENIED;
      }
      var target := env.resolve(contentType, objectPk);
      if target.None? {
        return BAD_TARGET;
      }
      var resolved := target.value;
      var clean := SanitizedBody(env, body);
      var validation := env.validate(clean);
      if !validation.valid {
        return ErrorResponse(validation.error, 400);
      }
      ParentSurvivesSanitizing(env, body);
      var parent := ParentId(clean);
      if parent.Some? {
        var found := FindFor(store.comments, resolved.target, parent.value);
        if found.None? {
          return BAD_PARENT;
        }
      }
      var c := store.Create(resolved.contentType, objectPk, request.user, parent, CommentValue(clean));
      return Response(200, CommentBody(c));
    }
  }

  /** The detail view: get, update and soft-delete one comment by id. The
      lookup runs over every active comment; the URL's content type and
      object key reach only the permission predicates. */
  class CommentDetailView {
    const perms: DetailPerms
    const store: CommentStore
    const env: Collaborators

    constructor(perms: DetailPerms, store: CommentStore, env: Collaborators)
      ensures this.perms == perms && this.store == store && this.env == env
    {
      this.perms := perms;
      this.store := store;
      this.env := env;
    }

    /** Get: the active comment with this id, or the framework's 404. Reads the table only. */
    method Get(request: Request, contentType: ContentTypeId, objectPk: ObjectPk, commentId: CommentId)
      returns (resp: Response)
      ensures resp.status == 403 <==> !perms.canGetComment(request, contentType, objectPk, commentId)
      ensures !perms.canGetComment(request, contentType, objectPk, commentId) ==> resp == PERMISSION_DENIED
      ensures perms.canGetComment(request, contentType, objectPk, commentId) ==>
                match FindActive(store.comments, commentId)
                case None => resp == NOT_FOUND
                case Some(c) => resp == Response(200, CommentBody(c))
    {
      if !perms.canGetComment(request, contentType, objectPk, commentId) {
        return PERMISSION_DENIED;
      }
      var comment := FindActive(store.comments, commentId);
      if comment.None? {
        return NOT_FOUND;
      }
      return Response(200, CommentBody(comment.value));
    }

    /** Update: validate the raw body, then sanitise; a non-empty result
        replaces the text of that one comment, an empty one is a 304 that
        writes nothing. */
    method Put(request: Request, contentType: ContentTypeId, objectPk: ObjectPk, commentId: CommentId, body: Body)
      returns (resp: Response)
      requires store.Valid()
      requires perms.canUpdateComment(request, contentType, objectPk, commentId)
               && FindActive(store.comments, commentId).Some? && env.validate(body).valid
               ==> HasTextComment(body)
      modifies store
      ensures store.Valid() && store.nextId == old(store.nextId)
      ensures resp.status == 403 <==> !perms.canUpdateComment(request, contentType, objectPk, commentId)
      ensures !perms.canUpdateComment(request, contentType, objectPk, commentId) ==> resp == PERMISSION_DENIED
      ensures perms.canUpdateComment(request, contentType, objectPk, commentId) ==>
                match FindActive(old(store.comments), commentId)
                case None => resp == NOT_FOUND
                case Some(c) =>
                  var v := env.validate(body);
                  && (!v.valid ==> resp == ErrorResponse(v.error, 400))
                  && (v.valid ==>
                        var text := SanitizeAndLinkify(env, CommentValue(body));
                        if text == "" then resp == NOT_MODIFIED
                        else resp == Response(200, CommentBody(c.(text := text))))
      ensures resp.status != 200 ==> store.comments == old(store.comments)
      ensures resp.status == 200 ==>
                && resp.payload.CommentBody?
                && var c := resp.payload.comment;
                && FindActive(old(store.comments), commentId) == Some(c.(text := old(store.comments)[commentId].text))
                && c.text != ""
                && store.comments == old(store.comments)[commentId := c]
    {
      if !perms.canUpdateComment(request, contentType, objectPk, commentId) {
        return PERMISSION_DENIED;
      }
      var comment := FindActive(store.comments, commentId);
      if comment.None? {
        return NOT_FOUND;
      }
      var validation := env.validate(body);
      if !validation.valid {
        return ErrorResponse(validation.error, 400);
      }
      var text := SanitizeAndLinkify(env, CommentValue(body));
      if text != "" {
        var updated := comment.value.(text := text);
        store.Save(updated);
        return Response(200, CommentBody(updated));
      } else {
        return NOT_MODIFIED;
      }
    }

    /** Delete: gated by the get predicate, as the handler is written; marks
        the comment inactive and keeps its row. */
    method Delete(request: Request, contentType: ContentTypeId, objectPk: ObjectPk, commentId: CommentId)
      returns (resp: Response)
      requires store.Valid()
      modifies store
      ensures store.Valid() && store.nextId == old(store.nextId)
      ensures resp.status == 403 <==> !perms.canGetComment(request, contentType, objectPk, commentId)
      ensures !perms.canGetComment(request, contentType, objectPk, commentId) ==> resp == PERMISSION_DENIED
      ensures perms.canGetComment(request, contentType, objectPk, commentId) ==>
                match FindActive(old(store.comments), commentId)
                case None => resp == NOT_FOUND
                case Some(c) => resp == NO_CONTENT
      ensures resp.status != 204 ==> store.comments == old(store.comments)
      ensures resp.status == 204 ==>
                && FindActive(old(store.comments), commentId).Some?
                && store.comments == old(store.comments)[commentId := old(store.comments)[commentId].(active := false)]
    {
      if !perms.canGetComment(request, contentType, objectPk, commentId) {
        return PERMISSION_DENIED;
      }
      var comment := FindActive(store.comments, commentId);
      if comment.None? {
        return NOT_FOUND;
      }
      store.Save(comment.value.(active := false));
      return NO_CONTENT;
    }
  }
}

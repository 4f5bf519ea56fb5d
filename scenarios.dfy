/** Sequences of requests against one table, and what a client can rely on
    from the handlers' contracts alone. */
module CommentScenarios {
  import opened CommentTypes
  import opened CommentStore
  import opened Permissions
  import opened CommentViews

  /** The detail lookup ignores the URL's target: with permission granted,
      two requests that differ only in content type and object key get the
      same answer. */
  method GetIgnoresUrlTarget(view: CommentDetailView, request: Request,
                             contentType1: ContentTypeId, objectPk1: ObjectPk,
                             contentType2: ContentTypeId, objectPk2: ObjectPk, commentId: CommentId)
    returns (first: Response, second: Response)
    ensures view.perms.canGetComment(request, contentType1, objectPk1, commentId)
            && view.perms.canGetComment(request, contentType2, objectPk2, commentId)
            ==> first == second && (first.status == 200 || first == NOT_FOUND)
  {
    first := view.Get(request, contentType1, objectPk1, commentId);
    second := view.Get(request, contentType2, objectPk2, commentId);
  }

  /** Delete is soft: after a 204, a get of the same id under the same URL is
      a 404, yet the row is still in the table, inactive, with its text and
      every other field as before. */
  method DeleteThenGet(view: CommentDetailView, request: Request, contentType: ContentTypeId,
                       objectPk: ObjectPk, commentId: CommentId)
    returns (deleted: Response, got: Response)
    requires view.store.Valid()
    modifies view.store
    ensures deleted.status == 204 ==>
              && got == NOT_FOUND
              && commentId in old(view.store.comments) && commentId in view.store.comments
              && !view.store.comments[commentId].active
              && SameRecord(view.store.comments[commentId], old(view.store.comments)[commentId])
              && view.store.comments[commentId].text == old(view.store.comments)[commentId].text
  {
    deleted := view.Delete(request, contentType, objectPk, commentId);
    got := view.Get(request, contentType, objectPk, commentId);
    if deleted.status == 204 {
      DeactivatedIsHidden(old(view.store.comments), commentId);
    }
  }

  /** Delete consults the get predicate only: a policy that lets a request
      get a comment but not delete it still lets the delete through. */
  method DeleteWithoutDeletePermission(view: CommentDetailView, request: Request, contentType: ContentTypeId,
                                       objectPk: ObjectPk, commentId: CommentId)
    returns (deleted: Response)
    requires view.store.Valid()
    requires view.perms.canGetComment(request, contentType, objectPk, commentId)
    requires !view.perms.canDeleteComment(request, contentType, objectPk, commentId)
    requires FindActive(view.store.comments, commentId).Some?
    modifies view.store
    ensures deleted == NO_CONTENT
    ensures FindActive(view.store.comments, commentId) == None
  {
    deleted := view.Delete(request, contentType, objectPk, commentId);
  }

  /** An update whose text sanitises to nothing is a 304, and a later get
      returns the comment exactly as it was. */
  method EmptyUpdateThenGet(view: CommentDetailView, request: Request, contentType: ContentTypeId,
                            objectPk: ObjectPk, commentId: CommentId, body: Body)
    returns (updated: Response, got: Response)
    requires view.store.Valid()
    requires view.perms.canUpdateComment(request, contentType, objectPk, commentId)
             && FindActive(view.store.comments, commentId).Some? && view.env.validate(body).valid
             ==> HasTextComment(body)
    requires view.perms.canGetComment(request, contentType, objectPk, commentId)
    modifies view.store
    ensures updated == NOT_MODIFIED ==>
              && commentId in old(view.store.comments)
              && got == Response(200, CommentBody(old(view.store.comments)[commentId]))
  {
    updated := view.Put(request, contentType, objectPk, commentId, body);
    got := view.Get(request, contentType, objectPk, commentId);
  }

  /** A created comment shows up in the next listing of its target, next to
      exactly the comments listed before, provided the resolver's target
      carries the content type it returns and the URL's object key. */
  method CreateThenList(view: CommentView, request: Request, contentType: ContentTypeId,
                        objectPk: ObjectPk, body: Body)
    returns (created: Response, listed: Response)
    requires view.store.Valid()
    requires view.perms.canCreateComment(request, contentType, objectPk) && view.env.resolve(contentType, objectPk).Some? ==>
               && HasTextComment(body)
               && (view.env.validate(SanitizedBody(view.env, body)).valid ==> HasParentReference(body))
    requires view.env.resolve(contentType, objectPk).Some? ==>
               var resolved := view.env.resolve(contentType, objectPk).value;
               resolved.target == Target(resolved.contentType, objectPk)
    requires view.perms.canListComments(request, contentType, objectPk)
    modifies view.store
    ensures created.status == 200 ==>
              && created.payload.CommentBody?
              && view.env.resolve(contentType, objectPk).Some?
              && var t := view.env.resolve(contentType, objectPk).value.target;
              && listed == Response(200, CommentList(ActiveCommentsFor(old(view.store.comments), t)
                                                     + {created.payload.comment}))
              && |listed.payload.comments| == |ActiveCommentsFor(old(view.store.comments), t)| + 1
  {
    created := view.Post(request, contentType, objectPk, body);
    listed := view.Get(request, contentType, objectPk);
    if created.status == 200 {
      var t := view.env.resolve(contentType, objectPk).value.target;
      ListingAfterInsert(old(view.store.comments), created.payload.comment, t);
      CreateAddsOne(old(view.store.comments), created.payload.comment, t);
    }
  }

  /** A 204 delete takes the comment out of its target's next listing, which
      shrinks by exactly one, while the table keeps every row. */
  method DeleteThenList(detail: CommentDetailView, collection: CommentView, request: Request,
                        contentType: ContentTypeId, objectPk: ObjectPk, commentId: CommentId)
    returns (deleted: Response, listed: Response)
    requires detail.store == collection.store
    requires detail.store.Valid()
    requires collection.perms.canListComments(request, contentType, objectPk)
    modifies detail.store
    ensures deleted.status == 204 && collection.env.resolve(contentType, objectPk).Some? ==>
              var t := collection.env.resolve(contentType, objectPk).value.target;
              && commentId in old(detail.store.comments)
              && var gone := old(detail.store.comments)[commentId];
              && listed == Response(200, CommentList(ActiveCommentsFor(old(detail.store.comments), t) - {gone}))
              && (AttachedTo(gone, t) ==>
                    |listed.payload.comments| == |ActiveCommentsFor(old(detail.store.comments), t)| - 1)
              && detail.store.comments.Keys == old(detail.store.comments).Keys
  {
    ghost var before := detail.store.comments;
    deleted := detail.Delete(request, contentType, objectPk, commentId);
    ghost var after := detail.store.comments;
    listed := collection.Get(request, contentType, objectPk);
    if deleted.status == 204 && collection.env.resolve(contentType, objectPk).Some? {
      var t := collection.env.resolve(contentType, objectPk).value.target;
      var gone := before[commentId];
      assert after == before[commentId := gone.(active := false)];
      ListingAfterSave(before, gone.(active := false), t);
      assert listed.payload.comments == ActiveCommentsFor(after, t);
      if AttachedTo(gone, t) {
        DeleteHidesOne(before, commentId, t);
      }
    }
  }
}

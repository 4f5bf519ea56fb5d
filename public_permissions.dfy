/** The allow-all policy the project installs: every predicate answers yes. */
module PublicPermissions {
  import opened CommentTypes
  import opened CommentStore
  import opened Permissions
  import opened CommentViews

  /** `Root.can_list_comments`. */
  function CanListComments(request: Request, contentType: ContentTypeId, objectPk: ObjectPk): (allowed: bool)
    ensures allowed
  {
    true
  }

  /** `Root.can_create_comment`. */
  function CanCreateComment(request: Request, contentType: ContentTypeId, objectPk: ObjectPk): (allowed: bool)
    ensures allowed
  {
    true
  }

  /** `Detail.can_get_comment`. */
  function CanGetComment(request: Request, contentType: ContentTypeId, objectPk: ObjectPk, commentId: CommentId): (allowed: bool)
    ensures allowed
  {
    true
  }

  /** `Detail.can_update_comment`. */
  function CanUpdateComment(request: Request, contentType: ContentTypeId, objectPk: ObjectPk, commentId: CommentId): (allowed: bool)
    ensures allowed
  {
    true
  }

  /** `Detail.can_delete_comment`. */
  function CanDeleteComment(request: Request, contentType: ContentTypeId, objectPk: ObjectPk, commentId: CommentId): (allowed: bool)
    ensures allowed
  {
    true
  }

  /** An instance of `Root`. */
  function Root(): (root: RootPerms)
    ensures forall request, contentType, objectPk ::
              root.canListComments(request, contentType, objectPk) && root.canCreateComment(request, contentType, objectPk)
  {
    RootPerms(CanListComments, CanCreateComment)
  }

  /** An instance of `Detail`. */
  function Detail(): (detail: DetailPerms)
    ensures forall request, contentType, objectPk, commentId ::
              && detail.canGetComment(request, contentType, objectPk, commentId)
              && detail.canUpdateComment(request, contentType, objectPk, commentId)
              && detail.canDeleteComment(request, contentType, objectPk, commentId)
  {
    DetailPerms(CanGetComment, CanUpdateComment, CanDeleteComment)
  }

  /** `init_permissions`: install `Root()` and `Detail()` in the registry. */
  method InitPermissions(registry: Registry)
    modifies registry
    ensures registry.root == Root() && registry.detail == Detail()
  {
    registry.SetPermissions(Root(), Detail());
  }

  /** Once the allow-all policy is installed, none of the five handlers
      answers 403, whatever the request, target, comment id and body. The
      bodies need only meet what each handler asks of the requests it lets
      past its gate and lookup. */
  method NoHandlerForbidsAfterInit(registry: Registry, store: CommentStore, env: Collaborators,
                                   request: Request, contentType: ContentTypeId, objectPk: ObjectPk,
                                   commentId: CommentId, createBody: Body, updateBody: Body)
    returns (list: Response, get: Response, update: Response, delete: Response, create: Response)
    requires store.Valid()
    requires Detail().canUpdateComment(request, contentType, objectPk, commentId)
             && FindActive(store.comments, commentId).Some? && env.validate(updateBody).valid
             ==> HasTextComment(updateBody)
    requires Root().canCreateComment(request, contentType, objectPk) && env.resolve(contentType, objectPk).Some? ==>
               && HasTextComment(createBody)
               && (env.validate(SanitizedBody(env, createBody)).valid ==> HasParentReference(createBody))
    modifies registry, store
    ensures list.status != 403 && get.status != 403 && update.status != 403
    ensures delete.status != 403 && create.status != 403
  {
    InitPermissions(registry);
    var collection := new CommentView(registry.root, store, env);
    var detail := new CommentDetailView(registry.detail, store, env);
    list := collection.Get(request, contentType, objectPk);
    get := detail.Get(request, contentType, objectPk, commentId);
    update := detail.Put(request, contentType, objectPk, commentId, updateBody);
    delete := detail.Delete(request, contentType, objectPk, commentId);
    create := collection.Post(request, contentType, objectPk, createBody);
  }
}

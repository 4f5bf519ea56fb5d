/** The permission policy the views consult: one group of predicates for the
    collection view and one for the detail view, and the registry that holds
    the policy in force. */
module Permissions {
  import opened CommentTypes

  /** Collection-level questions: may this request list, or create, comments
      on the target named by the URL? */
  datatype RootPerms = RootPerms(
    canListComments: (Request, ContentTypeId, ObjectPk) -> bool,
    canCreateComment: (Request, ContentTypeId, ObjectPk) -> bool)

  /** Item-level questions about one comment id under the URL's target. */
  datatype DetailPerms = DetailPerms(
    canGetComment: (Request, ContentTypeId, ObjectPk, CommentId) -> bool,
    canUpdateComment: (Request, ContentTypeId, ObjectPk, CommentId) -> bool,
    canDeleteComment: (Request, ContentTypeId, ObjectPk, CommentId) -> bool)

  /** The process-wide holder of the policy in force. */
  class Registry {
    var root: RootPerms
    var detail: DetailPerms

    constructor(root: RootPerms, detail: DetailPerms)
      ensures this.root == root && this.detail == detail
    {
      this.root := root;
      this.detail := detail;
    }

    /** Installs both policy groups at once. */
    method SetPermissions(root: RootPerms, detail: DetailPerms)
      modifies this
      ensures this.root == root && this.detail == detail
    {
      this.root := root;
      this.detail := detail;
    }
  }
}

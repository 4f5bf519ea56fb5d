/** The comment table the views read and write, and the queries they run on it. */
module CommentStore {
  import opened CommentTypes

  /** Every row is stored under its own id, the table's primary key. */
  predicate KeysAreIds(comments: map<CommentId, Comment>) {
    forall id | id in comments :: comments[id].id == id
  }

  /** The table is keyed by id, ids are positive and below the next id to
      hand out, and a parent is an earlier row of the table. */
  ghost predicate StoreInvariant(comments: map<CommentId, Comment>, nextId: CommentId) {
    && KeysAreIds(comments)
    && 0 < nextId
    && forall id | id in comments ::
         && 0 < id < nextId
         && (comments[id].parent.Some? ==>
               var p := comments[id].parent.value;
               p in comments && p < id)
  }

  /** Two rows are the same record when they differ at most in text and
      active flag, the only fields the views ever save back. */
  predicate SameRecord(a: Comment, b: Comment) {
    a.id == b.id && a.contentType == b.contentType && a.objectPk == b.objectPk
    && a.user == b.user && a.parent == b.parent
  }

  /** `Comment.objects.for_model(target)`: every comment of the target, active or not. */
  function CommentsFor(comments: map<CommentId, Comment>, t: Target): (r: set<Comment>)
    requires KeysAreIds(comments)
    ensures forall c :: c in r <==> c.id in comments && comments[c.id] == c && AttachedTo(c, t)
  {
    set id | id in comments && AttachedTo(comments[id], t) :: comments[id]
  }

  /** `Comment.objects.for_model(target).active()`, the list view's query set. */
  function ActiveCommentsFor(comments: map<CommentId, Comment>, t: Target): (r: set<Comment>)
    requires KeysAreIds(comments)
    ensures r <= CommentsFor(comments, t)
    ensures forall c :: c in r <==> c.id in comments && comments[c.id] == c && c.active && AttachedTo(c, t)
  {
    set c | c in CommentsFor(comments, t) && c.active
  }

  /** `get_object_or_404(Comment.objects.active(), pk=id)`: the detail views'
      lookup, over every active comment whatever its target. */
  function FindActive(comments: map<CommentId, Comment>, id: CommentId): (r: Option<Comment>)
    ensures r.Some? <==> id in comments && comments[id].active
    ensures r.Some? ==> r.value == comments[id]
  {
    if id in comments && comments[id].active then Some(comments[id]) else None
  }

  /** `Comment.objects.for_model(target).filter(id=id).first()`: the parent
      lookup, restricted to the target but not to active comments. */
  function FindFor(comments: map<CommentId, Comment>, t: Target, id: CommentId): (r: Option<Comment>)
    ensures r.Some? <==> id in comments && AttachedTo(comments[id], t)
    ensures r.Some? ==> r.value == comments[id]
  {
    if id in comments && AttachedTo(comments[id], t) then Some(comments[id]) else None
  }

  /** The parent lookup draws from the target's comments, active or not:
      it finds a comment exactly when that comment has the id and is in
      `for_model(target)`. */
  lemma FindForIsParentQuery(comments: map<CommentId, Comment>, t: Target, id: CommentId)
    requires KeysAreIds(comments)
    ensures forall c :: FindFor(comments, t, id) == Some(c) <==> c in CommentsFor(comments, t) && c.id == id
  {
  }

  /** The detail lookup finds exactly the comments some listing shows:
      those in the active query set of their own target, whatever target
      the request names. */
  lemma FindActiveIsListed(comments: map<CommentId, Comment>, id: CommentId)
    requires KeysAreIds(comments)
    ensures forall c :: FindActive(comments, id) == Some(c)
                        <==> c.id == id && c in ActiveCommentsFor(comments, Target(c.contentType, c.objectPk))
  {
  }

  /** Inserting one new active comment adds exactly it to its own target's
      listing and leaves every other target's listing as it was. */
  lemma ListingAfterInsert(comments: map<CommentId, Comment>, c: Comment, t: Target)
    requires KeysAreIds(comments)
    requires c.id !in comments && c.active
    ensures ActiveCommentsFor(comments[c.id := c], t)
            == ActiveCommentsFor(comments, t) + (if AttachedTo(c, t) then {c} else {})
  {
  }

  /** Saving a row back with new text or flag replaces that one row in its
      target's listing: the old row leaves it, and the new row joins it when
      it is active. Other targets' listings do not change. */
  lemma ListingAfterSave(comments: map<CommentId, Comment>, c: Comment, t: Target)
    requires KeysAreIds(comments)
    requires c.id in comments && SameRecord(c, comments[c.id])
    ensures ActiveCommentsFor(comments[c.id := c], t)
            == if AttachedTo(c, t)
               then ActiveCommentsFor(comments, t) - {comments[c.id]} + (if c.active then {c} else {})
               else ActiveCommentsFor(comments, t)
  {
  }

  /** A successful create grows its target's listing by exactly one comment
      and the table by exactly one row. */
  lemma {:induction false} CreateAddsOne(comments: map<CommentId, Comment>, c: Comment, t: Target)
    requires KeysAreIds(comments)
    requires c.id !in comments && c.active && AttachedTo(c, t)
    ensures |ActiveCommentsFor(comments[c.id := c], t)| == |ActiveCommentsFor(comments, t)| + 1
    ensures |comments[c.id := c]| == |comments| + 1
  {
    ListingAfterInsert(comments, c, t);
  }

  /** Soft-deleting an active comment of a target shrinks that target's
      listing by exactly one comment while the table keeps every row. */
  lemma {:induction false} DeleteHidesOne(comments: map<CommentId, Comment>, id: CommentId, t: Target)
    requires KeysAreIds(comments)
    requires id in comments && comments[id].active && AttachedTo(comments[id], t)
    ensures var after := comments[id := comments[id].(active := false)];
            && |ActiveCommentsFor(after, t)| == |ActiveCommentsFor(comments, t)| - 1
            && after.Keys == comments.Keys
  {
    ListingAfterSave(comments, comments[id].(active := false), t);
  }

  /** A soft-deleted comment is no longer found by the detail lookup, yet
      its row stays in the table with every other field as it was. */
  lemma DeactivatedIsHidden(comments: map<CommentId, Comment>, id: CommentId)
    requires id in comments
    ensures var after := comments[id := comments[id].(active := false)];
            && FindActive(after, id) == None
            && id in after && SameRecord(after[id], comments[id]) && after[id].text == comments[id].text
            && forall other :: other != id ==> FindActive(after, other) == FindActive(comments, other)
  {
  }

  /** The table behind the views: its rows and the next id to assign. */
  class CommentStore {
    var comments: map<CommentId, Comment>
    var nextId: CommentId

    ghost predicate Valid()
      reads this
    {
      StoreInvariant(comments, nextId)
    }

    constructor()
      ensures Valid() && comments == map[] && nextId == 1
    {
      comments := map[];
      nextId := 1;
    }

    /** `Comment.objects.create(...)`: a new active row under a fresh id. */
    method Create(contentType: ContentTypeId, objectPk: ObjectPk, user: UserId,
                  parent: Option<CommentId>, text: string) returns (c: Comment)
      requires Valid()
      requires parent.Some? ==> parent.value in comments
      modifies this
      ensures Valid()
      ensures c == Comment(old(nextId), contentType, objectPk, user, parent, text, true)
      ensures c.id !in old(comments)
      ensures comments == old(comments)[c.id := c]
      ensures nextId > old(nextId)
    {
      c := Comment(nextId, contentType, objectPk, user, parent, text, true);
      ghost var before := comments;
      comments := comments[c.id := c];
      nextId := nextId + 1;
      forall id | id in comments
        ensures comments[id].id == id && 0 < id < nextId
        ensures comments[id].parent.Some? ==>
                  var p := comments[id].parent.value;
                  p in comments && p < id
      {
        if id != c.id {
          assert before[id] == comments[id];
        }
      }
    }

    /** `comment.save()` on a row fetched earlier whose text or active flag
        the caller changed. */
    method Save(c: Comment)
      requires Valid()
      requires c.id in comments && SameRecord(c, comments[c.id])
      modifies this
      ensures Valid()
      ensures comments == old(comments)[c.id := c]
      ensures nextId == old(nextId)
    {
      comments := comments[c.id := c];
    }
  }
}

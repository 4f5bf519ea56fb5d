/** Values shared by the comment views: comments, targets, request bodies,
    responses and the collaborators the views call but do not define. */
module CommentTypes {

  datatype Option<+T> = None | Some(value: T)

  type CommentId = int
  type ContentTypeId = int
  type ObjectPk = string
  type UserId = int

  /** The already-authenticated request; only its user is read by the views. */
  datatype Request = Request(user: UserId)

  /** A stored comment row. `text` is the model's `comment` field and
      `active` its `is_active` flag. */
  datatype Comment = Comment(
    id: CommentId,
    contentType: ContentTypeId,
    objectPk: ObjectPk,
    user: UserId,
    parent: Option<CommentId>,
    text: string,
    active: bool)

  /** A target as `for_model` filters on it: its own content type and key. */
  datatype Target = Target(contentType: ContentTypeId, objectPk: ObjectPk)

  /** The pair `(content_type, target)` the resolver returns: the content
      type the create handler stores, and the target the queries filter on. */
  datatype Resolved = Resolved(contentType: ContentTypeId, target: Target)

  predicate AttachedTo(c: Comment, t: Target) {
    c.contentType == t.contentType && c.objectPk == t.objectPk
  }

  /** A parsed JSON value. */
  datatype Json =
    | JNull
    | JBool(b: bool)
    | JNumber(n: int)
    | JString(s: string)
    | JArray(items: seq<Json>)
    | JObject(fields: map<string, Json>)

  /** The request body after `json.loads`. */
  type Body = map<string, Json>

  /** The pair `(is_valid, err)` returned by the schema validator. */
  datatype Validation = Validation(valid: bool, error: string)

  /** The collaborators the views call and whose code is not part of this
      model: bleach's `clean` and `linkify`, `Comment.validate_json`, and
      `get_content_type_and_target_or_none`. */
  datatype Collaborators = Collaborators(
    clean: string -> string,
    linkify: string -> string,
    validate: Body -> Validation,
    resolve: (ContentTypeId, ObjectPk) -> Option<Resolved>)

  /** `_sanitize_and_linkify`: strip markup, then turn bare links into anchors. */
  function SanitizeAndLinkify(env: Collaborators, text: string): (r: string)
    ensures r == env.linkify(env.clean(text))
  {
    env.linkify(env.clean(text))
  }

  /** The body's `comment` field is absent or a JSON string. */
  predicate HasTextComment(body: Body) {
    "comment" !in body || body["comment"].JString?
  }

  /** `body.get("comment", "")`. */
  function CommentValue(body: Body): (text: string)
    requires HasTextComment(body)
    ensures "comment" !in body ==> text == ""
    ensures "comment" in body ==> body["comment"] == JString(text)
  {
    if "comment" in body then body["comment"].s else ""
  }

  /** The body's `parentID` field is absent, null or an integer. */
  predicate HasParentReference(body: Body) {
    "parentID" !in body || body["parentID"].JNull? || body["parentID"].JNumber?
  }

  /** `body.get("parentID", None)`: an absent field and JSON null both mean no parent. */
  function ParentId(body: Body): (parent: Option<CommentId>)
    requires HasParentReference(body)
    ensures parent.None? <==> "parentID" !in body || body["parentID"] == JNull
    ensures parent.Some? ==> body["parentID"] == JNumber(parent.value)
  {
    if "parentID" in body && body["parentID"].JNumber? then Some(body["parentID"].n) else None
  }

  /** The body with its `comment` field replaced by the sanitised text
      (absent text counts as ""), as the create handler prepares it. */
  function SanitizedBody(env: Collaborators, body: Body): (clean: Body)
    requires HasTextComment(body)
    ensures HasTextComment(clean)
    ensures CommentValue(clean) == SanitizeAndLinkify(env, CommentValue(body))
    ensures forall key :: key in body && key != "comment" ==> key in clean && clean[key] == body[key]
    ensures clean.Keys == body.Keys + {"comment"}
  {
    body["comment" := JString(SanitizeAndLinkify(env, CommentValue(body)))]
  }

  /** Sanitising rewrites only the `comment` field, so the parent reference
      the create handler reads from the sanitised body is the one sent. */
  lemma ParentSurvivesSanitizing(env: Collaborators, body: Body)
    requires HasTextComment(body)
    ensures HasParentReference(SanitizedBody(env, body)) == HasParentReference(body)
    ensures HasParentReference(body) ==> ParentId(SanitizedBody(env, body)) == ParentId(body)
  {
  }

  datatype Payload =
    | ErrorBody(error: string)          // the JSON envelope {"error": message}
    | CommentBody(comment: Comment)     // one serialised comment
    | CommentList(comments: set<Comment>) // a serialised query set, order not fixed
    | NotFoundPage                      // the framework's own 404, raised by get_object_or_404
    | NoBody

  datatype Response = Response(status: int, payload: Payload)

  /** `_build_error_response`: the uniform error envelope with the given status. */
  function ErrorResponse(message: string, status: int): (r: Response)
    ensures r.status == status && r.payload.ErrorBody? && r.payload.error == message
  {
    Response(status, ErrorBody(message))
  }

  const PERMISSION_DENIED: Response := ErrorResponse("Permission denied", 403)
  const BAD_TARGET: Response := ErrorResponse("Bad content type or object id", 404)
  const BAD_PARENT: Response := ErrorResponse("Bad parent", 404)
  const NOT_FOUND: Response := Response(404, NotFoundPage)
  const NOT_MODIFIED: Response := Response(304, NoBody)
  const NO_CONTENT: Response := Response(204, NoBody)
}

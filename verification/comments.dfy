/**
 * The comment thread of one target (hooks/use-comments.ts): fetch, append
 * on creation, field merge on edit, and the local-first delete.
 */
module Comments {
  import opened Outcomes
  import opened Seqs

  datatype Profile = Profile(displayName: Option<string>, avatarUrl: Option<string>)

  datatype Comment = Comment(
    id: string,
    body: string,
    targetType: string,
    targetId: string,
    parentId: Option<string>,
    authorId: string,
    createdAt: string,
    updatedAt: string,
    profile: Option<Profile>)

  datatype CommentsState = CommentsState(comments: seq<Comment>, isLoading: bool, error: Option<string>)

  const InitialState := CommentsState([], true, None)

  /**
   * `fetchComments`: success replaces the list with `data.items` (or
   * nothing); a non-OK answer records "Failed to fetch comments" whatever the
   * server said, a rejection its own message or "Unknown error"; the list is
   * kept on failure and loading ends either way.
   */
  function FetchComments(s: CommentsState, reply: Reply<Option<seq<Comment>>>): (r: CommentsState)
    ensures !r.isLoading
    ensures reply.Ok? ==> r.comments == reply.body.GetOr([]) && r.error.None?
    ensures reply.NotOk? ==> r.comments == s.comments && r.error == Some("Failed to fetch comments")
    ensures reply.Rejected? ==> r.comments == s.comments && r.error == Some(RejectionText(reply.reason, "Unknown error"))
  {
    match reply
    case Ok(items) => CommentsState(items.GetOr([]), false, None)
    case NotOk(_) => s.(isLoading := false, error := Some("Failed to fetch comments"))
    case Rejected(reason) => s.(isLoading := false, error := Some(RejectionText(reason, "Unknown error")))
  }

  /** The POST body of `addComment`. */
  datatype NewComment = NewComment(targetType: string, targetId: string, parentId: Option<string>, body: string)

  /**
   * What a call did: the request it made, the state it left, and whether
   * the returned promise rejected (the hook has no `catch`, so a failed
   * `fetch` reaches the caller).
   */
  datatype AddRun = AddRun(request: NewComment, state: CommentsState, rejected: bool)

  /** `addComment`: the server's comment is appended only on an OK answer. */
  function AddComment(s: CommentsState, targetType: string, targetId: string, body: string,
                      parentId: Option<string>, reply: Reply<Comment>): (r: AddRun)
    ensures r.request == NewComment(targetType, targetId, parentId, body)
    ensures reply.Ok? ==> r.state.comments == s.comments + [reply.body]
    ensures !reply.Ok? ==> r.state == s
    ensures r.state.isLoading == s.isLoading && r.state.error == s.error
    ensures r.rejected <==> reply.Rejected?
  {
    var request := NewComment(targetType, targetId, parentId, body);
    match reply
    case Ok(c) => AddRun(request, s.(comments := s.comments + [c]), false)
    case NotOk(_) => AddRun(request, s, false)
    case Rejected(_) => AddRun(request, s, true)
  }

  /**
   * The fields the PATCH answer carries; each may be absent, and an absent
   * field leaves the comment's own.
   */
  datatype CommentPatch = CommentPatch(
    id: Option<string>,
    body: Option<string>,
    targetType: Option<string>,
    targetId: Option<string>,
    parentId: Option<Option<string>>,
    authorId: Option<string>,
    createdAt: Option<string>,
    updatedAt: Option<string>,
    profile: Option<Option<Profile>>)

  const EmptyPatch := CommentPatch(None, None, None, None, None, None, None, None, None)

  /** `{ ...c, ...updated }`: every field the patch has wins, every field it lacks is kept. */
  function Merge(c: Comment, p: CommentPatch): (r: Comment)
    ensures p.id.Some? ==> r.id == p.id.value
    ensures p.id.None? ==> r.id == c.id
    ensures p.body.Some? ==> r.body == p.body.value
    ensures p.body.None? ==> r.body == c.body
    ensures p.targetType.Some? ==> r.targetType == p.targetType.value
    ensures p.targetType.None? ==> r.targetType == c.targetType
    ensures p.targetId.Some? ==> r.targetId == p.targetId.value
    ensures p.targetId.None? ==> r.targetId == c.targetId
    ensures p.parentId.Some? ==> r.parentId == p.parentId.value
    ensures p.parentId.None? ==> r.parentId == c.parentId
    ensures p.authorId.Some? ==> r.authorId == p.authorId.value
    ensures p.authorId.None? ==> r.authorId == c.authorId
    ensures p.createdAt.Some? ==> r.createdAt == p.createdAt.value
    ensures p.createdAt.None? ==> r.createdAt == c.createdAt
    ensures p.updatedAt.Some? ==> r.updatedAt == p.updatedAt.value
    ensures p.updatedAt.None? ==> r.updatedAt == c.updatedAt
    ensures p.profile.Some? ==> r.profile == p.profile.value
    ensures p.profile.None? ==> r.profile == c.profile
  {
    Comment(p.id.GetOr(c.id), p.body.GetOr(c.body), p.targetType.GetOr(c.targetType),
            p.targetId.GetOr(c.targetId), p.parentId.GetOr(c.parentId), p.authorId.GetOr(c.authorId),
            p.createdAt.GetOr(c.createdAt), p.updatedAt.GetOr(c.updatedAt), p.profile.GetOr(c.profile))
  }

  /** Merging the same answer twice is merging it once, and an empty answer changes nothing. */
  lemma MergeIdempotent(c: Comment, p: CommentPatch)
    ensures Merge(Merge(c, p), p) == Merge(c, p)
    ensures Merge(c, EmptyPatch) == c
  {
  }

  /** The later of two answers wins field by field: `{ ...{ ...c, ...p }, ...q }`. */
  function Overlay(p: CommentPatch, q: CommentPatch): CommentPatch {
    CommentPatch(Or(q.id, p.id), Or(q.body, p.body), Or(q.targetType, p.targetType),
                 Or(q.targetId, p.targetId), Or(q.parentId, p.parentId), Or(q.authorId, p.authorId),
                 Or(q.createdAt, p.createdAt), Or(q.updatedAt, p.updatedAt), Or(q.profile, p.profile))
  }

  function Or<T>(a: Option<T>, b: Option<T>): Option<T> {
    if a.Some? then a else b
  }

  /** Two edits in a row leave what one edit with the overlaid answer leaves. */
  lemma MergeTwice(c: Comment, p: CommentPatch, q: CommentPatch)
    ensures Merge(Merge(c, p), q) == Merge(c, Overlay(p, q))
  {
  }

  function HasId(id: string): Comment -> bool {
    (c: Comment) => c.id == id
  }

  function ApplyPatch(p: CommentPatch): Comment -> Comment {
    (c: Comment) => Merge(c, p)
  }

  /** What `editComment` left, and whether its promise rejected. */
  datatype EditRun = EditRun(state: CommentsState, rejected: bool)

  /**
   * `editComment`: on an OK answer the returned fields are merged into the
   * comments with that id; the others, and everything on any other answer,
   * stay as they were.
   */
  function EditComment(s: CommentsState, id: string, reply: Reply<CommentPatch>): (r: EditRun)
    ensures |r.state.comments| == |s.comments|
    ensures r.state.isLoading == s.isLoading && r.state.error == s.error
    ensures forall i :: 0 <= i < |s.comments| && reply.Ok? && s.comments[i].id == id ==>
              r.state.comments[i] == Merge(s.comments[i], reply.body)
    ensures forall i :: 0 <= i < |s.comments| && !(reply.Ok? && s.comments[i].id == id) ==>
              r.state.comments[i] == s.comments[i]
    ensures r.rejected <==> reply.Rejected?
  {
    match reply
    case Ok(p) => EditRun(s.(comments := UpdateWhere(s.comments, HasId(id), ApplyPatch(p))), false)
    case NotOk(_) => EditRun(s, false)
    case Rejected(_) => EditRun(s, true)
  }

  /**
   * What `deleteComment` did: the state it left, the id the DELETE request
   * names, and whether the returned promise rejected.
   */
  datatype DeleteRun = DeleteRun(state: CommentsState, requestedId: string, rejected: bool)

  /**
   * `deleteComment`: the comments with that id are removed at once, before
   * the request is sent; the server's answer is never consulted, so there is
   * no rollback, but a failed `fetch` rejects the caller's promise.
   */
  function DeleteComment(s: CommentsState, id: string, reply: Reply<()>): (r: DeleteRun)
    ensures r.requestedId == id
    ensures forall x :: x in r.state.comments <==> x in s.comments && x.id != id
    ensures IsSubsequence(r.state.comments, s.comments)
    ensures |r.state.comments| == |s.comments| - Count(HasId(id), s.comments)
    ensures r.state.isLoading == s.isLoading && r.state.error == s.error
    ensures r.rejected <==> reply.Rejected?
  {
    FilterIsSubsequence(Not(HasId(id)), s.comments);
    FilterPartition(HasId(id), s.comments);
    DeleteRun(s.(comments := Filter(Not(HasId(id)), s.comments)), id, reply.Rejected?)
  }

  /** The thread a delete leaves is the same whatever the server answers. */
  lemma DeleteIgnoresAnswer(s: CommentsState, id: string, a: Reply<()>, b: Reply<()>)
    ensures DeleteComment(s, id, a).state == DeleteComment(s, id, b).state
  {
  }

  /** Adding a comment with a new id and deleting it gives back the thread. */
  lemma AddThenDeleteRestores(s: CommentsState, targetType: string, targetId: string, body: string,
                              parentId: Option<string>, c: Comment, reply: Reply<()>)
    requires forall k :: 0 <= k < |s.comments| ==> s.comments[k].id != c.id
    ensures DeleteComment(AddComment(s, targetType, targetId, body, parentId, Ok(c)).state, c.id, reply).state == s
  {
    FilterConcat(Not(HasId(c.id)), s.comments, [c]);
    FilterKeepsAll(Not(HasId(c.id)), s.comments);
    assert Filter(Not(HasId(c.id)), [c]) == [];
  }

  /** A refresh that fails keeps the thread the previous successful fetch loaded. */
  lemma FailedRefreshKeepsThread(s: CommentsState, items: seq<Comment>, failure: Reply<Option<seq<Comment>>>)
    requires !failure.Ok?
    ensures FetchComments(FetchComments(s, Ok(Some(items))), failure).comments == items
    ensures FetchComments(FetchComments(s, Ok(Some(items))), failure).error.Some?
  {
  }
}

/** Reel comments (`src/context/CommentContext.jsx`): a map from reel id to
    the server's comment list, replaced after posts and filtered after deletes. */
module Comments {
  import opened Common

  datatype Reply = Reply(mongoId: Option<string>, id: Option<string>, text: string)

  /** A comment; `replies` is `undefined` when the server omitted it. */
  datatype Comment = Comment(mongoId: Option<string>, id: Option<string>, text: string, replies: Option<seq<Reply>>)

  /** The stored value: `undefined` when the server's `data` was missing. */
  type CommentMap = map<string, Option<seq<Comment>>>

  /** `c._id || c.id` */
  function CommentKey(c: Comment): Option<string> {
    FirstTruthy(c.mongoId, c.id)
  }

  /** `r._id || r.id` */
  function ReplyKey(r: Reply): Option<string> {
    FirstTruthy(r.mongoId, r.id)
  }

  /** `comments[reelId] || []` */
  function CommentsOf(m: CommentMap, reelId: string): (r: seq<Comment>)
    ensures reelId !in m || m[reelId].None? ==> r == []
    ensures reelId in m && m[reelId].Some? ==> r == m[reelId].value
  {
    if reelId in m && m[reelId].Some? then m[reelId].value else []
  }

  /** `getCommentCount` */
  function CommentCount(m: CommentMap, reelId: string): (n: nat)
    ensures reelId !in m || m[reelId].None? ==> n == 0
    ensures reelId in m && m[reelId].Some? ==> n == |m[reelId].value|
  {
    |CommentsOf(m, reelId)|
  }

  /** The result of a post: the server's `data`, or a failure. */
  datatype PostOutcome = Posted(data: Option<seq<Comment>>) | PostFailed

  datatype Step = Step(state: CommentMap, requested: bool)

  /** `addComment` and `addReply` alike: the reel's list becomes the server's. */
  function Post(m: CommentMap, loggedIn: bool, reelId: string, outcome: PostOutcome): (r: Step)
    ensures r.requested <==> loggedIn
    ensures !(loggedIn && outcome.Posted?) ==> r.state == m
    ensures loggedIn && outcome.Posted? ==> reelId in r.state && r.state[reelId] == outcome.data
    ensures forall k :: k != reelId ==> (k in r.state <==> k in m) && (k in r.state ==> r.state[k] == m[k])
  {
    if !loggedIn then Step(m, false)
    else match outcome
      case PostFailed => Step(m, true)
      case Posted(data) => Step(m[reelId := data], true)
  }

  /** `addComment`: a signed-in post whose answer carries a list makes that
      list the reel's comments; nothing else changes. */
  function AddComment(m: CommentMap, loggedIn: bool, reelId: string, outcome: PostOutcome): (r: Step)
    ensures r.requested <==> loggedIn
    ensures loggedIn && outcome.Posted? && outcome.data.Some? ==> CommentsOf(r.state, reelId) == outcome.data.value
    ensures loggedIn && outcome == Posted(None) ==> CommentsOf(r.state, reelId) == []
    ensures !(loggedIn && outcome.Posted?) ==> r.state == m
    ensures forall k :: k != reelId ==> CommentsOf(r.state, k) == CommentsOf(m, k)
  {
    Post(m, loggedIn, reelId, outcome)
  }

  /** `addReply`: the same rule as a comment post; the server's list holds
      the reply inside its parent comment. */
  function AddReply(m: CommentMap, loggedIn: bool, reelId: string, outcome: PostOutcome): (r: Step)
    ensures r == AddComment(m, loggedIn, reelId, outcome)
  {
    AddComment(m, loggedIn, reelId, outcome)
  }

  /** A successful post makes the count the length of the server's list. */
  lemma PostCount(m: CommentMap, reelId: string, data: seq<Comment>)
    ensures CommentCount(AddComment(m, true, reelId, Posted(Some(data))).state, reelId) == |data|
    ensures CommentCount(AddReply(m, true, reelId, Posted(Some(data))).state, reelId) == |data|
  {
    assert CommentsOf(AddComment(m, true, reelId, Posted(Some(data))).state, reelId) == data;
  }

  /** The filter test of `deleteComment`. */
  function KeepsComment(commentId: string): Comment -> bool {
    (c: Comment) => CommentKey(c) != Some(commentId)
  }

  /** The comments whose key does not stringify to `commentId`, in order; a
      comment without any id is always kept. */
  function WithoutComment(cs: seq<Comment>, commentId: string): (r: seq<Comment>)
    ensures |r| <= |cs|
    ensures forall c :: c in r <==> c in cs && CommentKey(c) != Some(commentId)
  {
    Filter(cs, KeepsComment(commentId))
  }

  /** Deleting goes comment by comment: a single comment survives exactly
      when its key differs from `commentId`, and deleting from a joined list
      joins the two results, so survivors keep their order and repetitions. */
  lemma WithoutCommentMeaning(a: seq<Comment>, b: seq<Comment>, c: Comment, commentId: string)
    ensures WithoutComment([c], commentId) == if CommentKey(c) != Some(commentId) then [c] else []
    ensures WithoutComment(a + b, commentId) == WithoutComment(a, commentId) + WithoutComment(b, commentId)
  {
    FilterSingle(c, KeepsComment(commentId));
    FilterConcat(a, b, KeepsComment(commentId));
  }

  /** Every comment with a different id survives, and deleting an absent id
      changes nothing. */
  lemma WithoutCommentKeeps(cs: seq<Comment>, commentId: string)
    ensures forall i :: 0 <= i < |cs| && CommentKey(cs[i]) != Some(commentId) ==> cs[i] in WithoutComment(cs, commentId)
    ensures (forall i :: 0 <= i < |cs| ==> CommentKey(cs[i]) != Some(commentId)) ==> WithoutComment(cs, commentId) == cs
  {
    if forall i :: 0 <= i < |cs| ==> CommentKey(cs[i]) != Some(commentId) {
      FilterKeepsAll(cs, KeepsComment(commentId));
    }
  }

  /** `deleteComment`: after a successful request the reel keeps exactly the
      comments with a different id, in order. */
  function DeleteComment(m: CommentMap, loggedIn: bool, reelId: string, commentId: string, succeeded: bool): (r: Step)
    ensures r.requested <==> loggedIn
    ensures !(loggedIn && succeeded) ==> r.state == m
    ensures loggedIn && succeeded ==> reelId in r.state && r.state[reelId] == Some(WithoutComment(CommentsOf(m, reelId), commentId))
    ensures forall k :: k != reelId ==> (k in r.state <==> k in m) && (k in r.state ==> r.state[k] == m[k])
  {
    if !loggedIn then Step(m, false)
    else if !succeeded then Step(m, true)
    else Step(m[reelId := Some(WithoutComment(CommentsOf(m, reelId), commentId))], true)
  }

  /** The replies whose key does not stringify to `replyId`, in order. */
  function WithoutReply(rs: seq<Reply>, replyId: string): (r: seq<Reply>)
    ensures |r| <= |rs|
    ensures forall x :: x in r <==> x in rs && ReplyKey(x) != Some(replyId)
  {
    Filter(rs, (r: Reply) => ReplyKey(r) != Some(replyId))
  }

  /** One comment after a reply delete: only a comment whose key equals
      `commentId` is touched, and its replies become a filtered array. */
  function PruneReply(c: Comment, commentId: string, replyId: string): (r: Comment)
    ensures CommentKey(c) != Some(commentId) ==> r == c
    ensures CommentKey(c) == Some(commentId) ==>
      r == c.(replies := Some(WithoutReply(match c.replies case Some(rs) => rs case None => [], replyId)))
  {
    if CommentKey(c) == Some(commentId) then
      c.(replies := Some(WithoutReply(match c.replies case Some(rs) => rs case None => [], replyId)))
    else c
  }

  function PruneReplies(cs: seq<Comment>, commentId: string, replyId: string): (r: seq<Comment>)
    ensures |r| == |cs|
    ensures forall i :: 0 <= i < |cs| ==> r[i] == PruneReply(cs[i], commentId, replyId)
  {
    if cs == [] then [] else [PruneReply(cs[0], commentId, replyId)] + PruneReplies(cs[1..], commentId, replyId)
  }

  /** `deleteReply` */
  function DeleteReply(m: CommentMap, loggedIn: bool, reelId: string, commentId: string, replyId: string, succeeded: bool): (r: Step)
    ensures r.requested <==> loggedIn
    ensures !(loggedIn && succeeded) ==> r.state == m
    ensures loggedIn && succeeded ==> reelId in r.state && r.state[reelId] == Some(PruneReplies(CommentsOf(m, reelId), commentId, replyId))
    ensures forall k :: k != reelId ==> (k in r.state <==> k in m) && (k in r.state ==> r.state[k] == m[k])
  {
    if !loggedIn then Step(m, false)
    else if !succeeded then Step(m, true)
    else Step(m[reelId := Some(PruneReplies(CommentsOf(m, reelId), commentId, replyId))], true)
  }

  /** A reply delete keeps the number of comments and every comment's text
      and id; only replies of the matching comment can disappear. */
  lemma DeleteReplyKeepsComments(m: CommentMap, reelId: string, commentId: string, replyId: string)
    ensures var after := CommentsOf(DeleteReply(m, true, reelId, commentId, replyId, true).state, reelId);
      var before := CommentsOf(m, reelId);
      |after| == |before| &&
      forall i :: 0 <= i < |before| ==>
        after[i].mongoId == before[i].mongoId && after[i].id == before[i].id && after[i].text == before[i].text &&
        (CommentKey(before[i]) != Some(commentId) ==> after[i] == before[i])
  {
  }

  /** A fetched reel for `setInitialComments`. */
  datatype ReelRow = ReelRow(mongoId: Option<string>, id: Option<string>, comments: Option<seq<Comment>>)

  /** `(reel._id || reel.id)?.toString()`, skipped when falsy. */
  function RowKey(r: ReelRow): (k: Option<string>)
    ensures k.Some? ==> k.value != ""
  {
    var k := FirstTruthy(r.mongoId, r.id);
    if Truthy(k) then k else None
  }

  function RowComments(r: ReelRow): Option<seq<Comment>> {
    Some(match r.comments case Some(cs) => cs case None => [])
  }

  /** `setInitialComments` builds a fresh map from the rows that have an id. */
  function SetInitialComments(rows: seq<ReelRow>): (r: CommentMap)
    ensures forall k :: k in r ==> k != "" && r[k].Some? && exists i :: 0 <= i < |rows| && RowKey(rows[i]) == Some(k)
  {
    LastWins(rows, RowKey, RowComments)
  }

  /** No key of the loaded map is empty or comes from a row without an id,
      and every listed reel holds its last row's comments (or none). */
  lemma SetInitialCommentsContents(rows: seq<ReelRow>, k: string)
    ensures k in SetInitialComments(rows) ==> k != "" && exists i :: 0 <= i < |rows| && RowKey(rows[i]) == Some(k)
    ensures forall i :: 0 <= i < |rows| && RowKey(rows[i]) == Some(k) && LastWithKey(rows, RowKey, i) ==>
      CommentsOf(SetInitialComments(rows), k) == (match rows[i].comments case Some(cs) => cs case None => [])
  {
    LastWinsKeys(rows, RowKey, RowComments, k);
    forall i | 0 <= i < |rows| && RowKey(rows[i]) == Some(k) && LastWithKey(rows, RowKey, i)
      ensures CommentsOf(SetInitialComments(rows), k) == (match rows[i].comments case Some(cs) => cs case None => [])
    {
      LastWinsValue(rows, RowKey, RowComments, i);
    }
  }
}

/** The comments sheet of `src/pages/CommentsModal.js`: relative timestamps,
    the input handlers and the reply-collapse rule. The handlers' calls into
    the comment store are returned as `Dispatch` values. */
module CommentsModal {
  import opened Common

  /** A relative age as the sheet prints it. */
  datatype Ago = JustNow | Minutes(m: nat) | Hours(h: nat) | Days(d: nat)

  /** Whole seconds between the stamp and `now` (both in milliseconds),
      rounded down as `Math.floor` does. */
  function Seconds(createdAt: int, now: int): int {
    (now - createdAt) / 1000
  }

  /** `timeAgo(date)`: a missing or empty date reads as "just now"; otherwise
      each unit is the floor of the previous one divided by 60, 60 and 24. */
  function TimeAgo(createdAt: Option<int>, now: int): (a: Ago)
    ensures createdAt.None? ==> a == JustNow
    ensures createdAt.Some? ==> var s := Seconds(createdAt.value, now);
      (a.JustNow? <==> s < 60) &&
      (a.Minutes? ==> 1 <= a.m < 60 && 60 * a.m <= s < 60 * (a.m + 1)) &&
      (a.Hours? ==> 1 <= a.h < 24 && 3600 * a.h <= s < 3600 * (a.h + 1)) &&
      (a.Days? ==> 1 <= a.d && 86400 * a.d <= s < 86400 * (a.d + 1))
  {
    if createdAt.None? then JustNow
    else
      var seconds := Seconds(createdAt.value, now);
      if seconds < 60 then JustNow
      else
        var minutes := seconds / 60;
        if minutes < 60 then Minutes(minutes)
        else
          var hours := minutes / 60;
          if hours < 24 then Hours(hours)
          else Days(hours / 24)
  }

  /** The converse of `TimeAgo`'s bounds: an age inside a bucket's range is
      always printed with that bucket and that count. */
  lemma TimeAgoBuckets(createdAt: int, now: int, n: nat)
    ensures var s := Seconds(createdAt, now);
      (1 <= n < 60 && 60 * n <= s < 60 * (n + 1) ==> TimeAgo(Some(createdAt), now) == Minutes(n)) &&
      (1 <= n < 24 && 3600 * n <= s < 3600 * (n + 1) ==> TimeAgo(Some(createdAt), now) == Hours(n)) &&
      (1 <= n && 86400 * n <= s < 86400 * (n + 1) ==> TimeAgo(Some(createdAt), now) == Days(n))
  {
  }

  /** The text of an age: "just now", or the count followed by m, h or d. */
  function AgoText(a: Ago): (t: string)
    ensures a.JustNow? ==> t == "just now"
    ensures !a.JustNow? ==> |t| >= 2 && (forall i :: 0 <= i < |t| - 1 ==> IsDigit(t[i]))
    ensures a.Minutes? ==> t == Decimal(a.m) + "m"
    ensures a.Hours? ==> t == Decimal(a.h) + "h"
    ensures a.Days? ==> t == Decimal(a.d) + "d"
  {
    match a
    case JustNow => "just now"
    case Minutes(m) => Decimal(m) + "m"
    case Hours(h) => Decimal(h) + "h"
    case Days(d) => Decimal(d) + "d"
  }

  /** The number an age prints (0 for "just now"). */
  function Count(a: Ago): nat {
    match a
    case JustNow => 0
    case Minutes(m) => m
    case Hours(h) => h
    case Days(d) => d
  }

  /** The last character of the text names the bucket. */
  function UnitChar(a: Ago): char {
    match a
    case JustNow => 'w'
    case Minutes(_) => 'm'
    case Hours(_) => 'h'
    case Days(_) => 'd'
  }

  lemma TextEndsWithUnit(a: Ago)
    ensures |AgoText(a)| > 0 && AgoText(a)[|AgoText(a)| - 1] == UnitChar(a)
    ensures !a.JustNow? ==> AgoText(a)[..|AgoText(a)| - 1] == Decimal(Count(a))
  {
  }

  /** Different ages print differently: the text determines the age. */
  lemma AgoTextInjective(a: Ago, b: Ago)
    requires AgoText(a) == AgoText(b)
    ensures a == b
  {
    TextEndsWithUnit(a);
    TextEndsWithUnit(b);
    if !a.JustNow? {
      DecimalInjective(Count(a), Count(b));
    }
  }

  /** The confirmation the popover waits for: `{ id, type, parentId }`. */
  datatype ConfirmKind = CommentKind | ReplyKind

  datatype Confirm = Confirm(id: Option<string>, kind: ConfirmKind, parentId: Option<string>)

  /** The sheet's local state; `showReplies` maps a comment key to whether
      its replies are expanded. */
  datatype Sheet = Sheet(
    newComment: string,
    inlineReplyId: Option<string>,
    replyText: string,
    deleteConfirm: Option<Confirm>,
    showReplies: map<string, bool>)

  const InitialSheet := Sheet("", None, "", None, map[])

  /** A call into the comment store. */
  datatype Dispatch =
    | AddCommentCall(reelId: string, text: string)
    | AddReplyCall(reelId: string, commentId: Option<string>, text: string)
    | DeleteCommentCall(reelId: string, id: Option<string>)
    | DeleteReplyCall(reelId: string, parentId: Option<string>, id: Option<string>)

  datatype Handled = Handled(sheet: Sheet, call: Option<Dispatch>)

  /** `handleAddComment`: blank text is ignored; otherwise the text is posted
      as typed and the input cleared. */
  function HandleAddComment(s: Sheet, reelId: string): (h: Handled)
    ensures IsBlank(s.newComment) ==> h == Handled(s, None)
    ensures !IsBlank(s.newComment) ==>
      h.call == Some(AddCommentCall(reelId, s.newComment)) && h.sheet == s.(newComment := "")
  {
    if IsBlank(s.newComment) then Handled(s, None)
    else Handled(s.(newComment := ""), Some(AddCommentCall(reelId, s.newComment)))
  }

  /** Submitting twice posts once: the cleared input is blank. */
  lemma AddCommentPostsOnce(s: Sheet, reelId: string)
    ensures HandleAddComment(HandleAddComment(s, reelId).sheet, reelId).call.None?
  {
  }

  /** `showReplies[key]`, where a missing entry is falsy. */
  predicate Expanded(s: Sheet, key: string) {
    key in s.showReplies && s.showReplies[key]
  }

  /** `handleAddReply(commentId)`: blank text is ignored; otherwise the reply
      is posted, the text cleared, the inline box closed and the comment's
      replies expanded. The comment key is used as an object key, so a
      missing one becomes "undefined". */
  function HandleAddReply(s: Sheet, reelId: string, commentId: Option<string>): (h: Handled)
    ensures IsBlank(s.replyText) ==> h == Handled(s, None)
    ensures !IsBlank(s.replyText) ==>
      h.call == Some(AddReplyCall(reelId, commentId, s.replyText)) &&
      h.sheet.replyText == "" && h.sheet.inlineReplyId.None? &&
      h.sheet.newComment == s.newComment && h.sheet.deleteConfirm == s.deleteConfirm &&
      Expanded(h.sheet, JsString(commentId)) &&
      (forall k :: k != JsString(commentId) ==> (Expanded(h.sheet, k) <==> Expanded(s, k)))
  {
    if IsBlank(s.replyText) then Handled(s, None)
    else
      Handled(s.(replyText := "", inlineReplyId := None, showReplies := s.showReplies[JsString(commentId) := true]),
              Some(AddReplyCall(reelId, commentId, s.replyText)))
  }

  /** `handleDelete`: without a pending confirmation nothing happens;
      otherwise the matching delete is dispatched and the confirmation
      cleared. */
  function HandleDelete(s: Sheet, reelId: string): (h: Handled)
    ensures s.deleteConfirm.None? ==> h == Handled(s, None)
    ensures s.deleteConfirm.Some? ==> h.sheet == s.(deleteConfirm := None) && h.call.Some?
    ensures s.deleteConfirm.Some? && s.deleteConfirm.value.kind == CommentKind ==>
      h.call.value == DeleteCommentCall(reelId, s.deleteConfirm.value.id)
    ensures s.deleteConfirm.Some? && s.deleteConfirm.value.kind == ReplyKind ==>
      h.call.value == DeleteReplyCall(reelId, s.deleteConfirm.value.parentId, s.deleteConfirm.value.id)
  {
    match s.deleteConfirm
    case None => Handled(s, None)
    case Some(c) =>
      var call := if c.kind == CommentKind then DeleteCommentCall(reelId, c.id) else DeleteReplyCall(reelId, c.parentId, c.id);
      Handled(s.(deleteConfirm := None), Some(call))
  }

  /** Confirming twice deletes once. */
  lemma DeleteDispatchesOnce(s: Sheet, reelId: string)
    ensures HandleDelete(HandleDelete(s, reelId).sheet, reelId).call.None?
  {
  }

  /** The Reply button: opens the inline box under that comment, pre-filled
      with a mention of its author (the word "undefined" stands in for a missing name). */
  function StartReply(s: Sheet, commentKey: Option<string>, username: Option<string>): (r: Sheet)
    ensures r.inlineReplyId == commentKey
    ensures |r.replyText| > 1 && r.replyText[0] == '@' && r.replyText[|r.replyText| - 1] == ' '
    ensures r.replyText[1..|r.replyText| - 1] == JsString(username)
    ensures r.newComment == s.newComment && r.deleteConfirm == s.deleteConfirm && r.showReplies == s.showReplies
  {
    s.(inlineReplyId := commentKey, replyText := "@" + JsString(username) + " ")
  }

  /** A fresh mention is never blank, so Post is enabled right away. */
  lemma MentionIsPostable(s: Sheet, commentKey: Option<string>, username: Option<string>)
    ensures !IsBlank(StartReply(s, commentKey, username).replyText)
  {
    assert !IsWhitespace(StartReply(s, commentKey, username).replyText[0]);
  }

  /** "View N replies" shows iff the comment has replies, is not expanded and
      has more than two of them. */
  predicate ViewRepliesLink(s: Sheet, key: string, replyCount: nat) {
    replyCount > 0 && !Expanded(s, key) && replyCount > 2
  }

  /** The reply list is rendered in the other branch, visible when expanded
      or short. */
  predicate RepliesListed(s: Sheet, key: string, replyCount: nat) {
    replyCount > 0 && !ViewRepliesLink(s, key, replyCount) && (Expanded(s, key) || replyCount <= 2)
  }

  /** "Hide replies" shows inside the list for more than two replies. */
  predicate HideRepliesLink(s: Sheet, key: string, replyCount: nat) {
    RepliesListed(s, key, replyCount) && replyCount > 2
  }

  /** A comment with replies shows either the link or the list, never both;
      two or fewer replies are always listed. */
  lemma ReplyVisibility(s: Sheet, key: string, replyCount: nat)
    ensures replyCount > 0 ==> (ViewRepliesLink(s, key, replyCount) <==> !RepliesListed(s, key, replyCount))
    ensures 0 < replyCount <= 2 ==> RepliesListed(s, key, replyCount) && !HideRepliesLink(s, key, replyCount)
    ensures replyCount > 2 ==> (RepliesListed(s, key, replyCount) <==> Expanded(s, key))
    ensures replyCount == 0 ==> !ViewRepliesLink(s, key, replyCount) && !RepliesListed(s, key, replyCount)
  {
  }

  /** The two links set the comment's flag. */
  function SetExpanded(s: Sheet, key: string, expanded: bool): (r: Sheet)
    ensures Expanded(r, key) == expanded
    ensures forall k :: k != key ==> (Expanded(r, k) <==> Expanded(s, k))
  {
    s.(showReplies := s.showReplies[key := expanded])
  }

  /** Clicking "View N replies" lists them, and "Hide replies" collapses
      them back to the link. */
  lemma ViewThenHide(s: Sheet, key: string, replyCount: nat)
    requires ViewRepliesLink(s, key, replyCount)
    ensures HideRepliesLink(SetExpanded(s, key, true), key, replyCount)
    ensures ViewRepliesLink(SetExpanded(SetExpanded(s, key, true), key, false), key, replyCount)
  {
  }

  /** The signed-in user's two id fields. */
  datatype User = User(id: Option<string>, mongoId: Option<string>)

  /** `(user?.id || user?._id) === comment.user`: with nobody signed in the
      left side is `undefined`. */
  predicate ShowDelete(user: Option<User>, author: Option<string>)
    ensures user.None? && author.Some? ==> !ShowDelete(user, author)
    ensures user.Some? && Truthy(user.value.id) && author == user.value.id ==> ShowDelete(user, author)
    ensures user.Some? && !Truthy(user.value.id) && author == user.value.mongoId ==> ShowDelete(user, author)
  {
    (match user case None => None case Some(u) => FirstTruthy(u.id, u.mongoId)) == author
  }

  /** Authors see the button on their own comments; a signed-out viewer
      sees it exactly on comments that carry no author. */
  lemma ShowDeleteCases(user: Option<User>, author: Option<string>)
    ensures user.Some? && Truthy(user.value.id) ==> (ShowDelete(user, author) <==> author == user.value.id)
    ensures user.None? ==> (ShowDelete(user, author) <==> author.None?)
  {
  }
}

/** Reel likes (`src/context/LikeContext.jsx`): a map from reel id to the
    server's list of likers. Nothing is optimistic here. */
module Like {
  import opened Common

  /** A liker as the server sends it: a bare id, or a populated user object
      whose `_id` may be missing. */
  datatype Liker = IdRef(ref: string) | UserObject(mongoId: Option<string>)

  /** The stored value: `undefined` when the server sent no list. */
  type LikeMap = map<string, Option<seq<Liker>>>

  /** A signed-in user's two id fields. */
  datatype User = User(id: Option<string>, mongoId: Option<string>)

  /** `(l._id || l).toString()` */
  function LikerKey(l: Liker): string {
    match l
    case IdRef(s) => s
    case UserObject(oid) => if Truthy(oid) then oid.value else "[object Object]"
  }

  /** `likes[reelId] || []` */
  function Likers(m: LikeMap, reelId: string): (r: seq<Liker>)
    ensures reelId !in m || m[reelId].None? ==> r == []
    ensures reelId in m && m[reelId].Some? ==> r == m[reelId].value
  {
    if reelId in m && m[reelId].Some? then m[reelId].value else []
  }

  /** `(user?.id || user?._id)?.toString()`, when truthy. */
  function UserKey(user: Option<User>): Option<string> {
    match user
    case None => None
    case Some(u) => var k := FirstTruthy(u.id, u.mongoId); if Truthy(k) then k else None
  }

  /** `isLiked`: the user's id is among the stringified likers. */
  predicate IsLiked(m: LikeMap, user: Option<User>, reelId: string)
    ensures IsLiked(m, user, reelId) ==> UserKey(user).Some? && |Likers(m, reelId)| > 0
    ensures UserKey(user).Some? && IdRef(UserKey(user).value) in Likers(m, reelId) ==> IsLiked(m, user, reelId)
    ensures UserKey(user).Some? && UserObject(Some(UserKey(user).value)) in Likers(m, reelId) ==> IsLiked(m, user, reelId)
  {
    var k := UserKey(user);
    k.Some? && exists i :: 0 <= i < |Likers(m, reelId)| && LikerKey(Likers(m, reelId)[i]) == k.value
  }

  /** Liked exactly when the user has a key and the list holds that key as a
      bare id, as a populated user whose `_id` is the key, or, for the key
      "[object Object]", as a populated user without an `_id`. */
  lemma IsLikedMeaning(m: LikeMap, user: Option<User>, reelId: string)
    ensures IsLiked(m, user, reelId) <==> (
      UserKey(user).Some? &&
      var k := UserKey(user).value;
      var likers := Likers(m, reelId);
      IdRef(k) in likers || UserObject(Some(k)) in likers ||
      (k == "[object Object]" && exists l :: l in likers && l.UserObject? && !Truthy(l.mongoId)))
  {
    var likers := Likers(m, reelId);
    if IsLiked(m, user, reelId) {
      var k := UserKey(user).value;
      var i :| 0 <= i < |likers| && LikerKey(likers[i]) == k;
      match likers[i]
      case IdRef(s) =>
        assert likers[i] == IdRef(k);
      case UserObject(oid) =>
        if Truthy(oid) {
          assert likers[i] == UserObject(Some(k));
        } else {
          assert likers[i] in likers;
        }
    }
    if UserKey(user).Some? {
      var k := UserKey(user).value;
      if UserObject(Some(k)) in likers {
        var i :| 0 <= i < |likers| && likers[i] == UserObject(Some(k));
        assert LikerKey(likers[i]) == k;
      }
      if k == "[object Object]" && exists l :: l in likers && l.UserObject? && !Truthy(l.mongoId) {
        var l :| l in likers && l.UserObject? && !Truthy(l.mongoId);
        var i :| 0 <= i < |likers| && likers[i] == l;
        assert LikerKey(likers[i]) == k;
      }
    }
  }

  /** Without a usable user id nothing reads as liked. */
  lemma NoUserNoLike(m: LikeMap, user: Option<User>, reelId: string)
    requires user.None? || (!Truthy(user.value.id) && !Truthy(user.value.mongoId))
    ensures !IsLiked(m, user, reelId)
  {
  }

  /** `getLikeCount` */
  function LikeCount(m: LikeMap, reelId: string): (n: nat)
    ensures reelId !in m || m[reelId].None? ==> n == 0
    ensures reelId in m && m[reelId].Some? ==> n == |m[reelId].value|
  {
    |Likers(m, reelId)|
  }

  /** The request's result: the `likes` field of a success, or a failure. */
  datatype Outcome = Answered(likes: Option<seq<Liker>>) | Failed

  datatype LikeStep = LikeStep(state: LikeMap, requested: bool)

  /** `toggleLike`: no user means no request; a success stores the server's
      list for that reel; a failure changes nothing. */
  function ToggleLike(m: LikeMap, loggedIn: bool, reelId: string, outcome: Outcome): (r: LikeStep)
    ensures r.requested <==> loggedIn
    ensures !(loggedIn && outcome.Answered?) ==> r.state == m
    ensures loggedIn && outcome.Answered? ==> reelId in r.state && r.state[reelId] == outcome.likes
    ensures forall k :: k != reelId ==> (k in r.state <==> k in m) && (k in r.state ==> r.state[k] == m[k])
  {
    if !loggedIn then LikeStep(m, false)
    else match outcome
      case Failed => LikeStep(m, true)
      case Answered(likes) => LikeStep(m[reelId := likes], true)
  }

  /** After a successful toggle the like state is whatever the server's list
      says, regardless of what it was before, and the count is its length. */
  lemma LikeFollowsServer(m: LikeMap, user: Option<User>, reelId: string, likes: seq<Liker>)
    ensures var s := ToggleLike(m, true, reelId, Answered(Some(likes))).state;
      (IsLiked(s, user, reelId) <==> UserKey(user).Some? && exists i :: 0 <= i < |likes| && LikerKey(likes[i]) == UserKey(user).value)
      && LikeCount(s, reelId) == |likes|
  {
    var s := ToggleLike(m, true, reelId, Answered(Some(likes))).state;
    assert Likers(s, reelId) == likes;
  }

  /** A fetched reel for `setInitialLikes`. */
  datatype ReelRow = ReelRow(mongoId: Option<string>, id: Option<string>, likes: Option<seq<Liker>>)

  function RowKey(r: ReelRow): Option<string> {
    Some(JsString(FirstTruthy(r.mongoId, r.id)))
  }

  /** `reel.likes || []` */
  function RowLikes(r: ReelRow): Option<seq<Liker>> {
    Some(match r.likes case Some(l) => l case None => [])
  }

  /** `setInitialLikes` builds a fresh map; the previous one is dropped. */
  function SetInitialLikes(rows: seq<ReelRow>): (r: LikeMap)
    ensures forall k :: k in r ==> r[k].Some? && exists i :: 0 <= i < |rows| && RowKey(rows[i]) == Some(k)
  {
    LastWins(rows, RowKey, RowLikes)
  }

  /** After loading, a listed reel's likers are those of its last row (none
      when that row had no list), and reels not listed have none. */
  lemma SetInitialLikesContents(rows: seq<ReelRow>, k: string)
    ensures (forall i :: 0 <= i < |rows| ==> RowKey(rows[i]) != Some(k)) ==> Likers(SetInitialLikes(rows), k) == []
    ensures forall i :: 0 <= i < |rows| && RowKey(rows[i]) == Some(k) && LastWithKey(rows, RowKey, i) ==>
      Likers(SetInitialLikes(rows), k) == (match rows[i].likes case Some(l) => l case None => [])
  {
    LastWinsKeys(rows, RowKey, RowLikes, k);
    forall i | 0 <= i < |rows| && RowKey(rows[i]) == Some(k) && LastWithKey(rows, RowKey, i)
      ensures Likers(SetInitialLikes(rows), k) == (match rows[i].likes case Some(l) => l case None => [])
    {
      LastWinsValue(rows, RowKey, RowLikes, i);
    }
  }
}

/** The reel card of `src/components/ReelCard.js`: the tap machine on the
    video, the add-to-cart platform default, and the local follower count. */
module ReelCard {
  import opened Common
  import Follow

  /** Two taps closer together than this many milliseconds are a double tap. */
  const DoubleTapWindow := 300

  /** The heart overlay's lifetime; its end arrives as `HeartTimerExpired`. */
  const HeartMillis := 600

  /** `lastTapRef`, the heart flag and whether the video is playing. */
  datatype TapState = TapState(lastTap: int, showHeart: bool, playing: bool)

  const InitialTap := TapState(0, false, true)

  /** What one tap does: the new state, whether a like request goes out, and
      whether the heart timer is armed. */
  datatype Tap = Tap(state: TapState, sendLike: bool, heartTimer: bool)

  /** The second tap counts as double within 300 ms of the first; once
      `lastTap` is reset to 0, any tap after the first 300 ms of the clock is
      single. */
  predicate IsDoubleTap(s: TapState, now: int)
    ensures now <= s.lastTap ==> IsDoubleTap(s, now)
    ensures now >= s.lastTap + DoubleTapWindow ==> !IsDoubleTap(s, now)
  {
    now - s.lastTap < DoubleTapWindow
  }

  /** `handleVideoClick` at clock `now`; `liked` is `isLiked` for this reel and
      `hasVideo` whether the video element is mounted. */
  function HandleVideoClick(s: TapState, now: int, liked: bool, hasVideo: bool): (t: Tap)
    ensures IsDoubleTap(s, now) ==>
      t.state.lastTap == 0 && t.state.showHeart && t.state.playing == s.playing && t.heartTimer && (t.sendLike <==> !liked)
    ensures !IsDoubleTap(s, now) ==>
      t.state.lastTap == now && t.state.showHeart == s.showHeart && !t.sendLike && !t.heartTimer &&
      (t.state.playing <==> (if hasVideo then !s.playing else s.playing))
  {
    if IsDoubleTap(s, now) then Tap(TapState(0, true, s.playing), !liked, true)
    else Tap(TapState(now, s.showHeart, if hasVideo then !s.playing else s.playing), false, false)
  }

  /** The heart timer's expiry hides the heart and changes nothing else. */
  function HeartTimerExpired(s: TapState): (r: TapState)
    ensures !r.showHeart && r.lastTap == s.lastTap && r.playing == s.playing
  {
    s.(showHeart := false)
  }

  /** A double tap never unlikes: it sends a like only when the reel is not
      liked yet, so a liked reel stays liked. */
  lemma DoubleTapNeverUnlikes(s: TapState, now: int, hasVideo: bool)
    requires IsDoubleTap(s, now)
    ensures !HandleVideoClick(s, now, true, hasVideo).sendLike
  {
  }

  /** Two quick taps after a quiet spell make a double tap, and the reset to
      0 makes a third quick tap a single tap again (clock readings are far
      above 300 ms, so `now - 0` is never inside the window). */
  lemma TripleTap(s: TapState, t1: int, t2: int, t3: int, liked: bool, hasVideo: bool)
    requires !IsDoubleTap(s, t1)
    requires t1 <= t2 < t1 + DoubleTapWindow
    requires t3 >= DoubleTapWindow
    ensures var a := HandleVideoClick(s, t1, liked, hasVideo).state;
      IsDoubleTap(a, t2) && !IsDoubleTap(HandleVideoClick(a, t2, liked, hasVideo).state, t3)
  {
  }

  /** A double tap leaves playback where the first tap put it: the pair
      toggles playback exactly once. */
  lemma DoubleTapTogglesOnce(s: TapState, t1: int, t2: int, hasVideo: bool)
    requires !IsDoubleTap(s, t1) && t1 <= t2 < t1 + DoubleTapWindow
    ensures var a := HandleVideoClick(s, t1, false, hasVideo).state;
      HandleVideoClick(a, t2, false, hasVideo).state.playing == (if hasVideo then !s.playing else s.playing)
  {
  }

  /** The argument `handleAddToCart` receives: a platform string, or anything
      else (the cart button passes its click event). */
  datatype CartArg = PlatformName(name: string) | NotAString

  function TargetPlatform(arg: CartArg): (p: string)
    ensures arg.PlatformName? ==> p == arg.name
    ensures arg.NotAString? ==> p == "ZOMATO"
  {
    match arg
    case PlatformName(name) => name
    case NotAString => "ZOMATO"
  }

  /** The cart request and the notification it raises (hidden by its timer). */
  datatype CartClick = CartClick(reelId: Option<string>, platform: string, showNotification: bool)

  function HandleAddToCart(reelId: Option<string>, arg: CartArg): (c: CartClick)
    ensures c.reelId == reelId && c.platform == TargetPlatform(arg) && c.showNotification
  {
    CartClick(reelId, TargetPlatform(arg), true)
  }

  /** The card's own cart button passes an event, so it always asks for Zomato. */
  lemma CartButtonUsesZomato(reelId: Option<string>)
    ensures HandleAddToCart(reelId, NotAString).platform == "ZOMATO"
  {
  }

  /** The follow button shows for a signed-in user who did not create the
      reel: `user.id !== creatorId && user._id !== creatorId`. */
  predicate ShowFollowButton(loggedIn: bool, userId: Option<string>, userMongoId: Option<string>, creatorId: Option<string>)
    ensures !loggedIn ==> !ShowFollowButton(loggedIn, userId, userMongoId, creatorId)
    ensures userMongoId.None? && creatorId.None? ==> !ShowFollowButton(loggedIn, userId, userMongoId, creatorId)
    ensures loggedIn && creatorId.Some? && userId.None? && userMongoId.None? ==> ShowFollowButton(loggedIn, userId, userMongoId, creatorId)
  {
    loggedIn && userId != creatorId && userMongoId != creatorId
  }

  lemma OwnReelHidesFollow(userId: Option<string>, userMongoId: Option<string>)
    ensures !ShowFollowButton(true, userId, userMongoId, userId)
    ensures !ShowFollowButton(true, userId, userMongoId, userMongoId)
  {
  }

  /** What a follow click leaves behind once its request settles. */
  datatype FollowClick = FollowClick(follows: Follow.FollowMap, followers: int, requested: bool)

  /** `handleFollow` as written: the status read through `getFollowStatus` is
      passed to the follow context, and the local follower count moves at
      once, whatever the request's outcome. */
  function HandleFollow(follows: Follow.FollowMap, restaurantId: Option<string>, backendFollowing: bool,
                        followers: int, loggedIn: bool, outcome: Follow.Outcome): (r: FollowClick)
    ensures !Truthy(restaurantId) ==> r == FollowClick(follows, followers, false)
    ensures Truthy(restaurantId) ==>
      r.followers == (if Follow.FollowStatus(follows, restaurantId.value, backendFollowing) then followers - 1 else followers + 1)
  {
    if !Truthy(restaurantId) then FollowClick(follows, followers, false)
    else
      var following := Follow.FollowStatus(follows, restaurantId.value, backendFollowing);
      var settled := Follow.ToggleFollow(follows, loggedIn, restaurantId.value, following, outcome);
      FollowClick(settled.state, if following then followers - 1 else followers + 1, loggedIn)
  }

  /** When the request fails the follow state rolls back but the count does
      not: the button reads "Follow" again while the count stays raised. */
  lemma FollowCountDriftsOnFailure(followers: int)
    ensures var r := HandleFollow(map[], Some("r1"), false, followers, true, Follow.Failed(None));
      !Follow.FollowStatus(r.follows, "r1", false) && r.followers == followers + 1
  {
  }

  /** The evidently intended behaviour: the count moves with the follow
      state, so a failed request leaves both as they were. */
  function HandleFollowCorrected(follows: Follow.FollowMap, restaurantId: Option<string>, backendFollowing: bool,
                                 followers: int, loggedIn: bool, outcome: Follow.Outcome): (r: FollowClick)
    ensures !Truthy(restaurantId) ==> r == FollowClick(follows, followers, false)
  {
    if !Truthy(restaurantId) then FollowClick(follows, followers, false)
    else
      var following := Follow.FollowStatus(follows, restaurantId.value, backendFollowing);
      var settled := Follow.ToggleFollow(follows, loggedIn, restaurantId.value, following, outcome);
      var now := Follow.FollowStatus(settled.state, restaurantId.value, backendFollowing);
      FollowClick(settled.state, if now == following then followers else if following then followers - 1 else followers + 1, loggedIn)
  }

  /** In the corrected card the count changes by one exactly when the follow
      state flips, in the direction of the flip, and stays put otherwise. */
  lemma CorrectedCountTracksStatus(follows: Follow.FollowMap, restaurantId: string, backendFollowing: bool,
                                   followers: int, outcome: Follow.Outcome)
    requires restaurantId != ""
    ensures var before := Follow.FollowStatus(follows, restaurantId, backendFollowing);
      var r := HandleFollowCorrected(follows, Some(restaurantId), backendFollowing, followers, true, outcome);
      var after := Follow.FollowStatus(r.follows, restaurantId, backendFollowing);
      (outcome.Succeeded? <==> after != before) &&
      r.followers == followers + (if after == before then 0 else if after then 1 else -1)
  {
    var before := Follow.FollowStatus(follows, restaurantId, backendFollowing);
    Follow.ToggleFollowEffect(follows, restaurantId, before, outcome, backendFollowing);
  }
}

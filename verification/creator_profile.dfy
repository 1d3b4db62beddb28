/** The creator profile page of `src/pages/CreatorProfilePage.jsx`: slideshow
    indices, image removal while editing, the follow button and the
    own-profile test. */
module CreatorProfile {
  import opened Common
  import opened Slides

  /** Which slideshow a button drives: `'ambience'` or anything else (menu). */
  datatype SlideKind = Ambience | Menu

  datatype Slideshows = Slideshows(currentSlide: Num, menuSlide: Num)

  /** `nextSlide(type)`: moves the chosen index forward modulo its image count. */
  function NextSlide(s: Slideshows, kind: SlideKind, ambienceCount: nat, menuCount: nat): (r: Slideshows)
    ensures kind == Ambience ==> r.menuSlide == s.menuSlide
    ensures kind == Menu ==> r.currentSlide == s.currentSlide
  {
    match kind
    case Ambience => s.(currentSlide := Next(s.currentSlide, ambienceCount))
    case Menu => s.(menuSlide := Next(s.menuSlide, menuCount))
  }

  /** `prevSlide(type)`: moves the chosen index back modulo its image count. */
  function PrevSlide(s: Slideshows, kind: SlideKind, ambienceCount: nat, menuCount: nat): (r: Slideshows)
    ensures kind == Ambience ==> r.menuSlide == s.menuSlide
    ensures kind == Menu ==> r.currentSlide == s.currentSlide
  {
    match kind
    case Ambience => s.(currentSlide := Prev(s.currentSlide, ambienceCount))
    case Menu => s.(menuSlide := Prev(s.menuSlide, menuCount))
  }

  /** From a valid index both buttons land on a valid index, one step away
      with wrap-around. */
  lemma SlidesMoveByOne(s: Slideshows, ambienceCount: nat, menuCount: nat)
    requires InRange(s.currentSlide, ambienceCount) && InRange(s.menuSlide, menuCount)
    ensures var r := NextSlide(s, Ambience, ambienceCount, menuCount);
      InRange(r.currentSlide, ambienceCount) && r.currentSlide.v == (s.currentSlide.v + 1) % ambienceCount
    ensures var r := PrevSlide(s, Ambience, ambienceCount, menuCount);
      InRange(r.currentSlide, ambienceCount) && r.currentSlide.v == (s.currentSlide.v - 1 + ambienceCount) % ambienceCount
    ensures var r := NextSlide(s, Menu, ambienceCount, menuCount);
      InRange(r.menuSlide, menuCount) && r.menuSlide.v == (s.menuSlide.v + 1) % menuCount
    ensures var r := PrevSlide(s, Menu, ambienceCount, menuCount);
      InRange(r.menuSlide, menuCount) && r.menuSlide.v == (s.menuSlide.v - 1 + menuCount) % menuCount
  {
    StepsStayInRange(s.currentSlide, ambienceCount);
    StepsStayInRange(s.menuSlide, menuCount);
  }

  /** Going back after going forward restores both indices. */
  lemma PrevAfterNext(s: Slideshows, kind: SlideKind, ambienceCount: nat, menuCount: nat)
    requires InRange(s.currentSlide, ambienceCount) && InRange(s.menuSlide, menuCount)
    ensures PrevSlide(NextSlide(s, kind, ambienceCount, menuCount), kind, ambienceCount, menuCount) == s
  {
    PrevUndoesNext(s.currentSlide, ambienceCount);
    PrevUndoesNext(s.menuSlide, menuCount);
  }

  /** `prev.filter((_, i) => i !== index)`: every element except the one at
      `index`; an index outside the list removes nothing. */
  method RemoveAt<T>(s: seq<T>, index: int) returns (r: seq<T>)
    ensures 0 <= index < |s| ==> r == s[..index] + s[index + 1..]
    ensures !(0 <= index < |s|) ==> r == s
  {
    r := [];
    var i := 0;
    while i < |s|
      invariant 0 <= i <= |s|
      invariant 0 <= index < i ==> r == s[..index] + s[index + 1..i]
      invariant !(0 <= index < i) ==> r == s[..i]
    {
      if i != index {
        r := r + [s[i]];
      }
      i := i + 1;
    }
    assert s[..|s|] == s;
  }

  /** After removing position `index` every later element moves down by one
      and every earlier one stays put. */
  lemma RemoveAtShifts<T>(s: seq<T>, index: int, r: seq<T>)
    requires 0 <= index < |s| && r == s[..index] + s[index + 1..]
    ensures |r| == |s| - 1
    ensures forall k :: 0 <= k < index ==> r[k] == s[k]
    ensures forall k :: index <= k < |r| ==> r[k] == s[k + 1]
  {
  }

  /** The edit form's images and the newly picked files. */
  datatype EditImages = EditImages(
    ambienceImages: seq<string>,
    menuImages: seq<string>,
    ambienceFiles: seq<string>,
    menuFiles: seq<string>)

  /** `handleRemoveExistingAmbience`, `handleRemoveExistingMenu`,
      `handleRemoveNewAmbience` and `handleRemoveNewMenu`: each deletes one
      position of one list and touches nothing else. */
  datatype RemoveTarget = ExistingAmbience | ExistingMenu | NewAmbience | NewMenu

  method RemoveImage(e: EditImages, target: RemoveTarget, index: int) returns (r: EditImages)
    ensures target == ExistingAmbience ==> r == e.(ambienceImages := r.ambienceImages)
    ensures target == ExistingMenu ==> r == e.(menuImages := r.menuImages)
    ensures target == NewAmbience ==> r == e.(ambienceFiles := r.ambienceFiles)
    ensures target == NewMenu ==> r == e.(menuFiles := r.menuFiles)
    ensures target == ExistingAmbience && 0 <= index < |e.ambienceImages| ==>
      r.ambienceImages == e.ambienceImages[..index] + e.ambienceImages[index + 1..]
    ensures target == ExistingMenu && 0 <= index < |e.menuImages| ==>
      r.menuImages == e.menuImages[..index] + e.menuImages[index + 1..]
    ensures target == NewAmbience && 0 <= index < |e.ambienceFiles| ==>
      r.ambienceFiles == e.ambienceFiles[..index] + e.ambienceFiles[index + 1..]
    ensures target == NewMenu && 0 <= index < |e.menuFiles| ==>
      r.menuFiles == e.menuFiles[..index] + e.menuFiles[index + 1..]
  {
    match target {
      case ExistingAmbience =>
        var l := RemoveAt(e.ambienceImages, index);
        r := e.(ambienceImages := l);
      case ExistingMenu =>
        var l := RemoveAt(e.menuImages, index);
        r := e.(menuImages := l);
      case NewAmbience =>
        var l := RemoveAt(e.ambienceFiles, index);
        r := e.(ambienceFiles := l);
      case NewMenu =>
        var l := RemoveAt(e.menuFiles, index);
        r := e.(menuFiles := l);
    }
  }

  /** The follow button's state. */
  datatype FollowState = FollowState(isFollowing: bool, followCount: int)

  /** The request the button sends: unfollow (DELETE) or follow (POST). */
  datatype FollowCall = Unfollow(restaurantId: string) | FollowRestaurant(restaurantId: string)

  datatype FollowClick = FollowClick(state: FollowState, goToLogin: bool, call: Option<FollowCall>)

  /** `handleFollowClick`; `succeeded` is the request's outcome and the
      restaurant id is `restaurant._id || restaurant.id`. */
  function HandleFollowClick(s: FollowState, loggedIn: bool, restaurantId: string, succeeded: bool): (r: FollowClick)
    ensures !loggedIn ==> r == FollowClick(s, true, None)
    ensures loggedIn ==> !r.goToLogin && r.call.Some? && (r.call.value.Unfollow? <==> s.isFollowing)
    ensures loggedIn && !succeeded ==> r.state == s
    ensures loggedIn && succeeded ==> r.state.isFollowing == !s.isFollowing
    ensures loggedIn && succeeded ==> r.state.followCount == if s.isFollowing then s.followCount - 1 else s.followCount + 1
  {
    if !loggedIn then FollowClick(s, true, None)
    else if s.isFollowing then
      FollowClick(if succeeded then FollowState(false, s.followCount - 1) else s, false, Some(Unfollow(restaurantId)))
    else
      FollowClick(if succeeded then FollowState(true, s.followCount + 1) else s, false, Some(FollowRestaurant(restaurantId)))
  }

  /** Following and then unfollowing, both successfully, restores the state. */
  lemma FollowThenUnfollow(s: FollowState, restaurantId: string)
    ensures var once := HandleFollowClick(s, true, restaurantId, true).state;
      HandleFollowClick(once, true, restaurantId, true).state == s
  {
  }

  /** The signed-in user's id fields. */
  datatype User = User(id: Option<string>, mongoId: Option<string>)

  /** `isOwnProfile`: either id, stringified, equals the route id. */
  predicate IsOwnProfile(user: Option<User>, routeId: string)
    ensures user.None? ==> !IsOwnProfile(user, routeId)
    ensures user.Some? && (user.value.id == Some(routeId) || user.value.mongoId == Some(routeId)) ==> IsOwnProfile(user, routeId)
    ensures IsOwnProfile(user, routeId) && routeId != "undefined" ==> user.value.id == Some(routeId) || user.value.mongoId == Some(routeId)
  {
    user.Some? && (JsString(user.value.id) == routeId || JsString(user.value.mongoId) == routeId)
  }

  /** A user whose id fields are both missing stringifies them to
      "undefined", so only the route id "undefined" is taken as their own. */
  lemma IsOwnProfileWithoutIds(routeId: string)
    ensures IsOwnProfile(Some(User(None, None)), routeId) <==> routeId == "undefined"
  {
  }

  /** A signed-in user with an id always owns the profile at that id, and
      nobody owns a profile while signed out. */
  lemma IsOwnProfileOwnId(user: Option<User>, routeId: string)
    ensures user.Some? && user.value.id == Some(routeId) ==> IsOwnProfile(user, routeId)
    ensures user.Some? && user.value.mongoId == Some(routeId) ==> IsOwnProfile(user, routeId)
    ensures user.None? ==> !IsOwnProfile(user, routeId)
  {
  }
}

/** Restaurant follows (`src/context/FollowContext.jsx`): local overrides of
    the backend's follow status, set optimistically and reverted on failure. */
module Follow {
  import opened Common

  type FollowMap = map<string, bool>

  /** The HTTP call a toggle makes. */
  datatype FollowRequest = FollowRequest(useDelete: bool, endpoint: string)

  /** What `toggleRestaurantFollow` returns. */
  datatype FollowResult = FollowResult(success: bool, error: Option<string>)

  /** How the request ended; a failure may carry the server's message. */
  datatype Outcome = Succeeded | Failed(serverMessage: Option<string>)

  const LoginRequired := "Please login to follow"
  const ActionFailed := "Action failed"

  /** `getFollowStatus`: a local value wins over the backend's. */
  function FollowStatus(m: FollowMap, restaurantId: string, backendStatus: bool): (b: bool)
    ensures restaurantId in m ==> b == m[restaurantId]
    ensures restaurantId !in m ==> b == backendStatus
  {
    if restaurantId in m then m[restaurantId] else backendStatus
  }

  function RequestFor(restaurantId: string, currentStatus: bool): FollowRequest {
    FollowRequest(currentStatus, "/restaurants/" + restaurantId + "/" + (if currentStatus then "unfollow" else "follow"))
  }

  datatype Begun = Begun(state: FollowMap, request: Option<FollowRequest>, early: Option<FollowResult>)

  /** The synchronous part of a call: without a user it answers at once;
      otherwise it writes `!currentStatus` and sends the request. */
  function BeginToggle(m: FollowMap, loggedIn: bool, restaurantId: string, currentStatus: bool): (b: Begun)
    ensures !loggedIn ==> b.state == m && b.request.None? && b.early == Some(FollowResult(false, Some(LoginRequired)))
    ensures loggedIn ==> b.early.None? && b.request.Some?
    ensures loggedIn ==> FollowStatus(b.state, restaurantId, currentStatus) == !currentStatus
    ensures loggedIn ==> forall k :: k != restaurantId ==> (k in b.state <==> k in m) && (k in m ==> b.state[k] == m[k])
    ensures loggedIn ==> (b.request.value.useDelete <==> currentStatus)
    ensures loggedIn ==> b.request.value.endpoint == "/restaurants/" + restaurantId + (if currentStatus then "/unfollow" else "/follow")
  {
    if !loggedIn then Begun(m, None, Some(FollowResult(false, Some(LoginRequired))))
    else Begun(m[restaurantId := !currentStatus], Some(RequestFor(restaurantId, currentStatus)), None)
  }

  /** A signed-in toggle sends DELETE to the restaurant's `unfollow` path
      exactly when the caller says it is followed, and POST to its `follow`
      path otherwise; the two calls never share an endpoint. */
  lemma EndpointChoice(m: FollowMap, restaurantId: string, currentStatus: bool)
    ensures var q := BeginToggle(m, true, restaurantId, currentStatus).request;
      q.Some? && (q.value.useDelete <==> currentStatus)
    ensures var q := BeginToggle(m, true, restaurantId, currentStatus).request;
      q.Some? && |q.value.endpoint| > |"/restaurants/" + restaurantId| &&
      q.value.endpoint[..|"/restaurants/" + restaurantId|] == "/restaurants/" + restaurantId
    ensures BeginToggle(m, true, restaurantId, true).request != BeginToggle(m, true, restaurantId, false).request
  {
    var prefix := "/restaurants/" + restaurantId;
    var e := BeginToggle(m, true, restaurantId, currentStatus).request.value.endpoint;
    assert e == prefix + (if currentStatus then "/unfollow" else "/follow");
    assert e[..|prefix|] == prefix;
  }

  datatype Settled = Settled(state: FollowMap, result: FollowResult)

  /** When the request settles: success keeps the state; failure writes the
      caller's `currentStatus` back and reports the server message or a fallback. */
  function Settle(current: FollowMap, restaurantId: string, currentStatus: bool, outcome: Outcome): (s: Settled)
    ensures outcome.Succeeded? ==> s == Settled(current, FollowResult(true, None))
    ensures outcome.Failed? ==> restaurantId in s.state && s.state[restaurantId] == currentStatus && !s.result.success
    ensures outcome.Failed? ==> s.result.error == Some(OrElse(outcome.serverMessage, ActionFailed))
    ensures forall k :: k != restaurantId ==> (k in s.state <==> k in current) && (k in s.state ==> s.state[k] == current[k])
  {
    match outcome
    case Succeeded => Settled(current, FollowResult(true, None))
    case Failed(msg) => Settled(current[restaurantId := currentStatus], FollowResult(false, Some(OrElse(msg, ActionFailed))))
  }

  /** One call with nothing else in flight: signed out changes nothing and
      fails; otherwise the restaurant ends on `!currentStatus` after a
      success and on `currentStatus` after a failure, and no other
      restaurant's override moves. */
  function ToggleFollow(m: FollowMap, loggedIn: bool, restaurantId: string, currentStatus: bool, outcome: Outcome): (r: Settled)
    ensures !loggedIn ==> r == Settled(m, FollowResult(false, Some(LoginRequired)))
    ensures r.result.success <==> loggedIn && outcome.Succeeded?
    ensures loggedIn ==> restaurantId in r.state && r.state[restaurantId] == (if outcome.Succeeded? then !currentStatus else currentStatus)
    ensures forall k :: k != restaurantId ==> (k in r.state <==> k in m) && (k in r.state ==> r.state[k] == m[k])
  {
    var b := BeginToggle(m, loggedIn, restaurantId, currentStatus);
    if b.early.Some? then Settled(b.state, b.early.value) else Settle(b.state, restaurantId, currentStatus, outcome)
  }

  /** After a call the restaurant reads as the opposite of `currentStatus` on
      success and as `currentStatus` itself on failure, whatever the backend
      says; a failure's error is never empty. */
  lemma ToggleFollowEffect(m: FollowMap, restaurantId: string, currentStatus: bool, outcome: Outcome, backend: bool)
    ensures var s := ToggleFollow(m, true, restaurantId, currentStatus, outcome);
      FollowStatus(s.state, restaurantId, backend) == (if outcome.Succeeded? then !currentStatus else currentStatus)
    ensures var s := ToggleFollow(m, true, restaurantId, currentStatus, outcome);
      s.result.success <==> outcome.Succeeded?
    ensures var s := ToggleFollow(m, true, restaurantId, currentStatus, outcome);
      !s.result.success ==> s.result.error.Some? && s.result.error.value != ""
  {
  }

  /** The rollback restores the caller's claim, not the earlier local value:
      when the caller's `currentStatus` disagrees with the stored override, a
      failed call leaves a different override behind. */
  lemma RollbackUsesCallerStatus()
    ensures var m := map["r" := true];
      ToggleFollow(m, true, "r", false, Failed(None)).state == map["r" := false]
  {
  }
}

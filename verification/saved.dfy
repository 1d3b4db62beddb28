/** Saved reels (`src/context/SavedContext.jsx`): a map from reel id to a
    saved flag, toggled optimistically and rolled back on failure. */
module Saved {
  import opened Common

  type SavedMap = map<string, bool>

  /** `isSaved`: `!!savedReels[reelId]`, so an unknown id reads as false. */
  function IsSaved(m: SavedMap, reelId: string): (b: bool)
    ensures reelId !in m ==> !b
    ensures reelId in m ==> b == m[reelId]
  {
    reelId in m && m[reelId]
  }

  /** The two endpoints a toggle may call. */
  datatype Endpoint = SaveReel | UnsaveReel

  /** What a call does before its request returns: the value it captured, the
      optimistic state, and the request it sends (none without a user). */
  datatype Begun = Begun(captured: bool, state: SavedMap, request: Option<Endpoint>)

  function BeginToggle(m: SavedMap, loggedIn: bool, reelId: string): (b: Begun)
    ensures !loggedIn ==> b.state == m && b.request.None?
    ensures loggedIn ==> b.request.Some? && b.captured == IsSaved(m, reelId)
    ensures loggedIn ==> reelId in b.state && b.state[reelId] == !IsSaved(m, reelId)
    ensures loggedIn ==> forall k :: k != reelId ==> (k in b.state <==> k in m) && (k in m ==> b.state[k] == m[k])
    ensures loggedIn ==> (b.request.value == UnsaveReel <==> IsSaved(m, reelId))
  {
    if !loggedIn then Begun(false, m, None)
    else
      var current := IsSaved(m, reelId);
      Begun(current, m[reelId := !current], Some(if current then UnsaveReel else SaveReel))
  }

  /** What the call does once its request settles, applied to whatever state
      is current then: nothing on success, and on failure the key is written
      back to the value captured when the call began. */
  function Settle(current: SavedMap, reelId: string, captured: bool, succeeded: bool): (m: SavedMap)
    ensures succeeded ==> m == current
    ensures !succeeded ==> reelId in m && m[reelId] == captured
    ensures forall k :: k != reelId ==> (k in m <==> k in current) && (k in m ==> m[k] == current[k])
  {
    if succeeded then current else current[reelId := captured]
  }

  /** One whole call with nothing else in flight. */
  function ToggleSave(m: SavedMap, loggedIn: bool, reelId: string, succeeded: bool): (r: SavedMap)
    ensures !loggedIn ==> r == m
    ensures loggedIn && succeeded ==> IsSaved(r, reelId) == !IsSaved(m, reelId)
    ensures !succeeded ==> IsSaved(r, reelId) == IsSaved(m, reelId)
    ensures forall k :: k != reelId ==> (k in r <==> k in m) && (k in r ==> r[k] == m[k])
  {
    var b := BeginToggle(m, loggedIn, reelId);
    if b.request.None? then b.state else Settle(b.state, reelId, b.captured, succeeded)
  }

  /** A successful toggle flips exactly the reel's flag; a failed one leaves
      every flag as it read before the call; without a user nothing changes. */
  lemma ToggleSaveEffect(m: SavedMap, loggedIn: bool, reelId: string, succeeded: bool)
    ensures var r := ToggleSave(m, loggedIn, reelId, succeeded);
      forall k :: IsSaved(r, k) == if loggedIn && succeeded && k == reelId then !IsSaved(m, k) else IsSaved(m, k)
    ensures !loggedIn ==> ToggleSave(m, loggedIn, reelId, succeeded) == m
  {
  }

  /** Two successful toggles in a row restore every flag. */
  lemma ToggleTwiceRestores(m: SavedMap, reelId: string)
    ensures forall k :: IsSaved(ToggleSave(ToggleSave(m, true, reelId, true), true, reelId, true), k) == IsSaved(m, k)
  {
    ToggleSaveEffect(m, true, reelId, true);
    ToggleSaveEffect(ToggleSave(m, true, reelId, true), true, reelId, true);
  }

  /** A fetched reel: `_id`, `id` and the truthiness of `isSaved`. */
  datatype ReelRow = ReelRow(mongoId: Option<string>, id: Option<string>, isSaved: bool)

  /** `reel._id || reel.id` used as an object key. */
  function RowKey(r: ReelRow): Option<string> {
    Some(JsString(FirstTruthy(r.mongoId, r.id)))
  }

  function RowSaved(r: ReelRow): bool {
    r.isSaved
  }

  /** `setInitialSavedStatus`: a non-array input adds nothing; otherwise every
      row's flag is merged over the previous map. */
  function SetInitialSavedStatus(prev: SavedMap, reels: Option<seq<ReelRow>>): (r: SavedMap)
    ensures reels.None? ==> r == prev
    ensures forall k :: k in prev ==> k in r
    ensures reels.Some? ==> forall k :: k in r && k !in prev ==> exists i :: 0 <= i < |reels.value| && RowKey(reels.value[i]) == Some(k)
  {
    match reels
    case None => prev
    case Some(rows) => prev + LastWins(rows, RowKey, RowSaved)
  }

  /** Keys carried by the input take the flag of their last row; all other
      keys keep their previous value. */
  lemma SetInitialSavedMerges(prev: SavedMap, rows: seq<ReelRow>, k: string)
    ensures var m := SetInitialSavedStatus(prev, Some(rows));
      (k in m <==> k in prev || exists i :: 0 <= i < |rows| && RowKey(rows[i]) == Some(k))
    ensures var m := SetInitialSavedStatus(prev, Some(rows));
      (forall i :: 0 <= i < |rows| ==> RowKey(rows[i]) != Some(k)) ==> (k in prev ==> m[k] == prev[k])
    ensures forall i :: 0 <= i < |rows| && RowKey(rows[i]) == Some(k) && LastWithKey(rows, RowKey, i) ==>
      SetInitialSavedStatus(prev, Some(rows))[k] == rows[i].isSaved
  {
    LastWinsKeys(rows, RowKey, RowSaved, k);
    forall i | 0 <= i < |rows| && RowKey(rows[i]) == Some(k) && LastWithKey(rows, RowKey, i)
      ensures SetInitialSavedStatus(prev, Some(rows))[k] == rows[i].isSaved
    {
      LastWinsValue(rows, RowKey, RowSaved, i);
    }
  }

  /** A row without any id is stored under the key "undefined". */
  lemma MissingIdKey(saved: bool)
    ensures RowKey(ReelRow(None, None, saved)) == Some("undefined")
  {
  }
}

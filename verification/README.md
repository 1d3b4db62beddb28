# Foodiegram client logic in Dafny

This project models the deterministic core of the Foodiegram web client, a
React front end where diners watch food reels and creators publish them. The
model covers four groups of behaviour:

- **The cart.** The cart reducer and its totals (`Cart`). The guarded remote
  cart actions keyed by reel and platform, each of which sends one request
  and then refetches the whole cart. The views on top of the cart: the side
  panel (`CartPanel`), the price comparison page (`PriceComparison`), the
  per-item app picker (`OrderSelection`) and the checkout page (`Checkout`).
- **Engagement stores.** Saved reels and restaurant follows, which update
  optimistically and roll back on failure (`Saved`, `Follow`). Likes, which
  take the server's liker list (`Like`). Comments, replaced per reel and
  filtered on delete (`Comments`). The duplicate-free recent-search list
  (`SearchHistory`).
- **Feed state machines.** The reel card's tap classifier, add-to-cart
  default and follower count (`ReelCard`). The home feed's debounced,
  bounded index and its exclusive overlays (`HomeFeed`). Slideshow index
  arithmetic (`Slides`, `RestaurantDetail`, `CreatorProfile`). The comment
  sheet's relative timestamps, handlers and reply-collapse rule
  (`CommentsModal`).
- **Strings, links and forms.** Asset and link normalisation (`Links`). The
  search list and detail card (`SearchLeft`, `SearchRight`). The ordered
  checks and outcomes of the upload, restaurant setup, sign-up, password
  reset, one-time-code and sign-in pages (`CreatorUpload`, `SetupRestaurant`,
  `Register`, `ResetPassword`, `VerifyOtp`, `Login`). The role-based
  navigation menu (`Sidebar`).

`Common` holds the shared vocabulary the modules depend on:

- JavaScript truthiness of optional values, `||` fallbacks, and `String()`
  of a missing value ("undefined");
- ASCII case mapping, whitespace and decimal rendering;
- a filter that goes element by element, so it distributes over concatenation and keeps order and repetitions;
- the last-write-wins map construction behind the bulk loaders.

Every remote call appears as an explicit outcome parameter, every clock as
an integer parameter, and every `setTimeout` as an explicit expiry function.
Each module is named after the source file it models, and its contracts and
lemmas state the promises listed below.

## Model

| member | source | states |
|---|---|---|
| Cart.IncreaseMatching | src/context/CartContext.js:39-44 | keeps the length; each line whose id matches gains one unit, every other line is unchanged |
| Cart.RemoveMatching | src/context/CartContext.js:36-37 | a line survives iff its id differs from the target; the result is shorter by the number of matching lines |
| Cart.LowerMatching | src/context/CartContext.js:48-52 | keeps length and ids; a matching line's quantity becomes max(0, q - 1), every other line is unchanged |
| Cart.KeepPositive | src/context/CartContext.js:53 | keeps exactly the lines with quantity > 0, so every surviving line is positive, and coincides with the element-by-element filter, so order and repetitions are kept |
| Cart.DecreaseMatching | src/context/CartContext.js:46-53 | the state after DECREASE_QUANTITY has only positive quantities, is no longer than before, and holds exactly the lowered lines that stay positive; DecreaseDistributes fixes their order and repetitions |
| Cart.DecreaseDistributes | src/context/CartContext.js:46-53 | DECREASE_QUANTITY goes line by line: a single line becomes its lowered self if that stays positive and vanishes otherwise, and a joined list gives the joined results, which fixes order and repetitions |
| Cart.LowerConcat | src/context/CartContext.js:47-52 | the map step of DECREASE_QUANTITY distributes over concatenation |
| Cart.AddLine | src/context/CartContext.js:22-34 | a present id keeps the length and raises every line with that id by one unit, leaving the others unchanged; a new id is appended with quantity 1 |
| Cart.Reduce | src/context/CartContext.js:17-61 | CLEAR_CART and a missing SET_CART payload give the empty cart; an unknown action returns the state unchanged |
| Cart.AddExisting | src/context/CartContext.js:22-31 | ADD_TO_CART of an id already present: same length, that line one unit more, every other line unchanged |
| Cart.AddNew | src/context/CartContext.js:33 | ADD_TO_CART of a new id appends it with quantity 1 |
| Cart.RemoveDistributes | src/context/CartContext.js:36-37 | REMOVE_FROM_CART commutes with concatenation, so the survivors keep their order |
| Cart.RemoveIdempotent | src/context/CartContext.js:36-37 | removing the same id twice equals removing it once |
| Cart.DecreaseEffect | src/context/CartContext.js:46-53 | stated by value: other positive lines survive unchanged, a matching line above 1 survives one unit lower, and a matching line at 1 is absent unless an equal line lowered from 2 is present (DecreaseDistributes gives the per-position statement) |
| Cart.UnitPrice | src/context/CartContext.js:170 | the unit price is the price if truthy, else totalPrice if truthy, else 0 |
| Cart.TotalQuantity | src/context/CartContext.js:165-168 | with no negative quantity the total is never negative and bounds every line's quantity |
| Cart.TotalPrice | src/context/CartContext.js:169-172 | with no negative price or quantity the total is never negative and bounds every line's contribution |
| Cart.OneMoreUnit | src/context/CartContext.js:170 | one more unit of a line adds exactly its unit price to what the line contributes |
| Cart.TotalPriceConcat | src/context/CartContext.js:169-172 | the total price of two lists joined is the sum of their totals |
| Cart.TotalPriceAfterRemove | src/context/CartContext.js:36-37 | REMOVE_FROM_CART lowers the total price by exactly what the matching lines contributed |
| Cart.TotalPriceAfterIncrease | src/context/CartContext.js:39-44 | INCREASE_QUANTITY raises the total price by one unit price per matching line |
| Cart.DecreaseOneLine | src/context/CartContext.js:46-53 | a positive line under DECREASE_QUANTITY loses one unit and one unit price when its id matches, and nothing otherwise, even when it drops out at zero |
| Cart.TotalPriceAfterDecrease | src/context/CartContext.js:46-53 | on positive quantities DECREASE_QUANTITY lowers the total price by one unit price per matching line, whether the line stays or is dropped |
| Cart.TotalPriceAfterAdd | src/context/CartContext.js:22-34 | ADD_TO_CART of a new id adds the item's unit price; of a present id it adds the unit prices of the lines already there |
| Cart.SumsOfUniqueId | src/context/CartContext.js:169-172 | with unique ids the per-id sums are the single matching line's unit price and contribution |
| Cart.SumsOfAbsentId | src/context/CartContext.js:169-172 | an id on no line contributes nothing to either per-id sum |
| Cart.TotalQuantityConcat | src/context/CartContext.js:165-168 | the total quantity of two lists joined is the sum of their totals |
| Cart.TotalQuantityBound | src/context/CartContext.js:165-168 | with every quantity positive the total quantity is at least the number of lines |
| Cart.TotalAfterIncrease | src/context/CartContext.js:39-44 | INCREASE_QUANTITY raises the total quantity by the number of matching lines |
| Cart.TotalAfterDecrease | src/context/CartContext.js:46-53 | on positive quantities DECREASE_QUANTITY lowers the total by exactly the number of matching lines |
| Cart.AddOneUnit | src/context/CartContext.js:22-34 | with unique ids ADD_TO_CART keeps ids unique and adds exactly one unit to the total |
| Cart.ReducePreservesCanonical | src/context/CartContext.js:17-61 | every action keeps all quantities positive, given a positive SET_CART payload |
| Cart.IncreaseExample | src/context/CartContext.js:39-44 | one line of quantity 1 at 200 becomes quantity 2, total quantity 2 and total price 400 |
| Cart.Refetch | src/context/CartContext.js:93-100 | a fetched list replaces the cart (a missing list gives []); a failed fetch keeps it |
| Cart.FindLine | src/context/CartContext.js:146 | returns the first line matching (reelId, platform), and none iff no line matches |
| Cart.Increase | src/context/CartContext.js:145-152 | no line, no request; otherwise one update to quantity + 1, with a refetch only after it succeeded |
| Cart.Decrease | src/context/CartContext.js:154-161 | a request is sent iff the line exists with quantity > 1, asking for quantity - 1 (at least 1); refetch only on success |
| Cart.Remove | src/context/CartContext.js:138-143 | always sends the (reelId, platform) removal; the cart changes only through the refetch after success |
| Cart.AddFromReel | src/context/CartContext.js:106-133 | platform defaults to ZOMATO; only a success flag refetches and opens the panel; each failure kind leaves the session and raises its own alert |
| Cart.AddLocal | src/context/CartContext.js:88-91 | opens the panel; the list grows by one line iff the id is new |
| Cart.Clear | src/context/CartContext.js:163 | empties the cart and leaves the panel flag alone |
| CartPanel.PricePill | src/components/CartPanel.jsx:72-83 | a pill shows iff its comparison price is positive and is active iff the line's platform is that pill's |
| CartPanel.ViewLines | src/components/CartPanel.jsx:52-117 | one rendered line per cart line, in order |
| CartPanel.View | src/components/CartPanel.jsx:27-144 | nothing renders while closed; the header counts lines; the footer shows iff the cart is non-empty |
| CartPanel.ProceedToCheckout | src/components/CartPanel.jsx:17-25 | a no-op iff the cart is empty; otherwise hands the whole cart to the comparison page and closes |
| CartPanel.DecreaseButtonMatchesEngine | src/components/CartPanel.jsx:90-94 | the decrease button is enabled iff the engine would send an update for that line |
| CartPanel.HeaderCountsLines | src/components/CartPanel.jsx:40 | the header's line count never exceeds the total quantity |
| CartPanel.SubtotalsAddUp | src/components/CartPanel.jsx:107 | with every price non-zero, the shown subtotals add up to the engine's totalPrice |
| PriceComparison.OrInfinity | src/pages/PriceComparison.jsx:18-19 | a missing or zero price becomes infinity, any other price stays finite |
| PriceComparison.CheapestRule | src/pages/PriceComparison.jsx:15-23 | Swiggy is the default iff it has a real price strictly below Zomato's (or Zomato has none); ties and two missing prices pick Zomato |
| PriceComparison.Cheapest | src/pages/PriceComparison.jsx:15-23 | Swiggy is picked only when it has a real price; a lone real price wins |
| PriceComparison.InitialSelectionsCover | src/pages/PriceComparison.jsx:15-23 | every cart reel starts selected, with the default of the last line carrying that reelId |
| PriceComparison.Toggle | src/pages/PriceComparison.jsx:60-75 | choosing the current platform clears the selection, any other choice sets it; other items unchanged |
| PriceComparison.ToggleTwice | src/pages/PriceComparison.jsx:60-75 | choosing the same platform twice from unselected returns to unselected |
| PriceComparison.DisabledIffNoPrice | src/pages/PriceComparison.jsx:145 | a card is disabled iff its price is missing or zero; a literal 0 never reaches the card |
| PriceComparison.LinkOf | src/pages/PriceComparison.jsx:41 | the link is never empty: a missing one becomes "#" |
| PriceComparison.Click | src/pages/PriceComparison.jsx:151 | a click on a disabled card changes nothing; any other click toggles |
| PriceComparison.ClickSelectsOnlyAvailable | src/pages/PriceComparison.jsx:145-151 | clicks never leave a selection on a platform without a price |
| PriceComparison.DefaultMayBeUnavailable | src/pages/PriceComparison.jsx:15-23 | an item with no prices starts on Zomato even though that card is disabled |
| PriceComparison.WithoutReel | src/pages/PriceComparison.jsx:78 | keeps exactly the lines of other reels, and coincides with the element-by-element filter, so their order and repetitions are kept |
| PriceComparison.WithoutReelDistributes | src/pages/PriceComparison.jsx:78 | a single line survives iff it belongs to another reel, and a joined cart gives the joined results |
| PriceComparison.RemoveItem | src/pages/PriceComparison.jsx:77-90 | drops every line of that reel and its selection, keeps every other selection with its value, and goes home iff nothing is left |
| Saved.IsSaved | src/context/SavedContext.jsx:38-40 | an unknown reel reads as not saved, a known one as its stored flag |
| Saved.BeginToggle | src/context/SavedContext.jsx:11-27 | no user: no change and no request; otherwise the flag becomes the negation of the value read at call start, other keys unchanged, and unsave is called iff it was saved |
| Saved.Settle | src/context/SavedContext.jsx:28-35 | success keeps the state; failure writes back the value captured at call start; other keys unchanged |
| Saved.ToggleSave | src/context/SavedContext.jsx:11-36 | no user changes nothing; a success flips the reel's flag, a failure leaves it reading as before; other reels unchanged |
| Saved.ToggleSaveEffect | src/context/SavedContext.jsx:11-36 | a successful call flips only that reel, a failed one restores every flag, no user changes nothing |
| Saved.ToggleTwiceRestores | src/context/SavedContext.jsx:11-36 | two successful toggles restore every flag |
| Saved.SetInitialSavedStatus | src/context/SavedContext.jsx:42-50 | a non-array input changes nothing; no previous key is lost, and every new key comes from some row |
| Saved.SetInitialSavedMerges | src/context/SavedContext.jsx:42-50 | input keys take the flag of their last row; keys absent from the input keep their previous value |
| Saved.MissingIdKey | src/context/SavedContext.jsx:46 | a row with neither `_id` nor `id` is stored under "undefined" |
| Follow.FollowStatus | src/context/FollowContext.jsx:41-46 | a local value wins, otherwise the backend's status |
| Follow.BeginToggle | src/context/FollowContext.jsx:11-22 | no user: failure "Please login to follow" and nothing changes; otherwise the status reads !currentStatus, other keys unchanged, DELETE iff currentStatus, to the unfollow path iff currentStatus and the follow path otherwise |
| Follow.EndpointChoice | src/context/FollowContext.jsx:21-22 | every signed-in toggle sends a request, under the restaurant's own path, with DELETE iff currentStatus; the two directions never send the same request |
| Follow.Settle | src/context/FollowContext.jsx:29-38 | success keeps the state; failure writes back the caller's currentStatus and reports the server message or "Action failed" |
| Follow.ToggleFollowEffect | src/context/FollowContext.jsx:11-38 | after a call the status is !currentStatus on success and currentStatus on failure, whatever the backend says; a failure's error is non-empty |
| Follow.ToggleFollow | src/context/FollowContext.jsx:11-38 | signed out: fails with the login message and nothing changes; otherwise success iff the request succeeded, the restaurant ends on !currentStatus or on currentStatus after a failure, and no other override moves |
| Follow.RollbackUsesCallerStatus | src/context/FollowContext.jsx:32-35 | the rollback restores the caller's claim, not the earlier local override |
| Like.Likers | src/context/LikeContext.jsx:40-42 | an unknown reel or a missing list gives [], otherwise the stored list |
| Like.IsLiked | src/context/LikeContext.jsx:27-34 | liked implies a truthy user id and a non-empty liker list; a bare liker id, or a populated liker whose `_id`, equals the user's id makes the reel liked; the exact iff is IsLikedMeaning |
| Like.IsLikedMeaning | src/context/LikeContext.jsx:27-34 | liked iff the user has a truthy id and the list holds it as a bare id, as a populated user's `_id`, or, for the id "[object Object]", as a populated user without `_id` |
| Like.NoUserNoLike | src/context/LikeContext.jsx:27-29 | without a truthy user id nothing reads as liked |
| Like.LikeCount | src/context/LikeContext.jsx:36-38 | the count is the number of stored likers: 0 for an unknown reel or a missing list |
| Like.ToggleLike | src/context/LikeContext.jsx:11-25 | a request is made iff signed in; a success stores the server's list for that reel; a failure or no user changes nothing; other reels unchanged |
| Like.LikeFollowsServer | src/context/LikeContext.jsx:14-38 | after a successful toggle the user reads as liked iff the server's list holds their id, and the count is that list's length |
| Like.SetInitialLikes | src/context/LikeContext.jsx:45-51 | every loaded key comes from some row and holds a list, never undefined |
| Like.SetInitialLikesContents | src/context/LikeContext.jsx:45-51 | the previous map is dropped: unlisted reels have no likers, a listed reel has its last row's likes or [] |
| Comments.CommentsOf | src/context/CommentContext.jsx:33-35 | an unknown reel or missing list gives [], otherwise the stored list |
| Comments.CommentCount | src/context/CommentContext.jsx:37-39 | the count is the number of stored comments: 0 for an unknown reel or a missing list |
| Comments.Post | src/context/CommentContext.jsx:13-31 | a request is made iff signed in; a success replaces that reel's list by the server's; otherwise nothing changes; other reels unchanged |
| Comments.AddComment | src/context/CommentContext.jsx:13-31 | a request iff signed in; a success with a list makes it the reel's comments, one without a list leaves none; otherwise nothing changes; other reels read as before |
| Comments.AddReply | src/context/CommentContext.jsx:51-63 | a reply post is exactly a comment post: the reel's whole list becomes the one the server returns, so every clause of AddComment holds for it |
| Comments.PostCount | src/context/CommentContext.jsx:22-27 | after a successful comment or reply post the count is the server list's length |
| Comments.WithoutCommentMeaning | src/context/CommentContext.jsx:91 | a single comment survives iff its key differs from the deleted id, and deleting from a joined list joins the results, which fixes order and repetitions |
| Comments.WithoutComment | src/context/CommentContext.jsx:91 | never longer than before; a comment is kept iff it was there and its key does not stringify to the deleted id |
| Comments.WithoutCommentKeeps | src/context/CommentContext.jsx:91 | every comment with another id survives; deleting an absent id changes nothing |
| Comments.DeleteComment | src/context/CommentContext.jsx:85-96 | a request iff signed in; after success that reel keeps exactly the other comments; other reels unchanged |
| Comments.PruneReply | src/context/CommentContext.jsx:71-79 | only the comment whose id equals commentId is touched; its replies become the filtered array |
| Comments.WithoutReply | src/context/CommentContext.jsx:75 | never longer than before; a reply is kept iff it was there and its key differs from the deleted reply id |
| Comments.PruneReplies | src/context/CommentContext.jsx:71-79 | every comment of the reel goes through that rule, in order |
| Comments.DeleteReply | src/context/CommentContext.jsx:65-84 | a request iff signed in; after success that reel's comments are pruned; other reels unchanged |
| Comments.DeleteReplyKeepsComments | src/context/CommentContext.jsx:65-84 | a reply delete keeps every comment's id and text and the comment count; comments with another id are untouched |
| Comments.RowKey | src/context/CommentContext.jsx:44 | a row key is never empty |
| Comments.SetInitialComments | src/context/CommentContext.jsx:41-48 | every loaded key is non-empty, comes from some row and holds a list |
| Comments.SetInitialCommentsContents | src/context/CommentContext.jsx:41-48 | only rows with an id give keys, and each listed reel holds its last row's comments or [] |
| SearchHistory.AddSearch | src/context/SearchContext.jsx:26-31 | the head is the added dish with every field kept and `searchedAt` set to the current clock |
| SearchHistory.ClearAll | src/context/SearchContext.jsx:39-41 | the list becomes empty |
| SearchHistory.RemoveSearchMeaning | src/context/SearchContext.jsx:33-37 | no survivor has the removed id and every entry with another id survives |
| SearchHistory.RemoveSearch | src/context/SearchContext.jsx:33-37 | never longer than before; an entry is kept iff it was there and its id differs from the removed one |
| SearchHistory.RemoveSearchOrder | src/context/SearchContext.jsx:33-37 | a single entry survives iff its id differs, and removing from a joined list joins the results, so survivors keep their order |
| SearchHistory.AddSearchMeaning | src/context/SearchContext.jsx:26-31 | after adding, only the head has the dish's id and the tail is the old list without it, in order |
| SearchHistory.RemoveSearchKeepsDistinct | src/context/SearchContext.jsx:33-37 | removing keeps ids unique |
| SearchHistory.AddSearchKeepsDistinct | src/context/SearchContext.jsx:26-31 | adding keeps ids unique, so the list never holds a dish twice |
| SearchHistory.AddSearchTwice | src/context/SearchContext.jsx:26-31 | adding the same dish twice equals adding it once at the later time |
| Links.AssetUrl | src/config.js:4-10 | a missing or empty path gives ""; an http path is kept; otherwise base + path with exactly one "/" prefixed when missing |
| Links.AssetUrlUnderBase | src/config.js:8-9 | a relative path always lands under base + "/" |
| Links.AssetUrlIdempotent | src/config.js:2-9 | with a base starting with "http" normalising twice equals normalising once |
| Links.DefaultAssetBaseIsHttp | src/config.js:2 | the default asset base starts with "http" |
| Links.AssetUrlNeedsHttpBase | src/config.js:6-9 | with a base not starting with "http" the rule is not idempotent |
| Links.SafeUrl | src/pages/CheckoutPage.jsx:37 | the result starts with "http"; an http URL is kept, any other gets "https://" |
| Links.SafeUrlIdempotent | src/components/RestaurantDetailCard.jsx:151 | applying the http-prefix rule twice equals applying it once |
| Links.EnsureProtocol | src/components/SearchPage/SearchRightPanel.jsx:22-25 | empty gives ""; an http:// or https:// URL is kept; anything else gets "https://" |
| Links.EnsureProtocolIdempotent | src/components/SearchPage/SearchRightPanel.jsx:22-25 | ensureProtocol is idempotent |
| Links.EnsureProtocolHasScheme | src/components/SearchPage/SearchRightPanel.jsx:22-25 | a non-empty result always starts with http:// or https:// |
| Links.SchemeRulesCompared | src/components/SearchPage/SearchRightPanel.jsx:22-25 | the two scheme rules agree except on a host that merely begins with "http", which only ensureProtocol prefixes |
| Checkout.GroupsAfter | src/pages/CheckoutPage.jsx:14-26 | a failed fetch leaves the groups empty, a successful one stores the server's groups |
| Checkout.Render | src/pages/CheckoutPage.jsx:41-60 | a spinner until the fetch settles; then the empty state iff there are no groups (always after a failure) |
| Checkout.OpenAppFor | src/pages/CheckoutPage.jsx:28-39 | a notice naming the platform iff it is unavailable or the link is empty; otherwise a tab at the http-prefixed link |
| Checkout.SnackbarExpire | src/pages/CheckoutPage.jsx:34 | the timer's expiry hides the notice |
| Checkout.AvailableLinkOpens | src/pages/CheckoutPage.jsx:29-38 | an available platform with a link opens a tab, at the link itself when it starts with "http" |
| Checkout.NoticesNamePlatform | src/pages/CheckoutPage.jsx:32 | the two platforms' notices differ |
| Slides.JsRem | src/components/RestaurantDetailCard.jsx:15 | JavaScript `%`: NaN iff the divisor is 0; otherwise the result takes the dividend's sign and is smaller in size than the divisor |
| Slides.StepsStayInRange | src/components/RestaurantDetailCard.jsx:13-21 | from a valid index both moves stay in range, stepping by one with wrap-around at both ends |
| Slides.Next | src/components/RestaurantDetailCard.jsx:13-16 | NaN stays NaN and zero images give NaN; from a valid index the next one is one higher, wrapping from the last to 0 |
| Slides.Prev | src/components/RestaurantDetailCard.jsx:18-21 | NaN stays NaN and zero images give NaN; from a valid index the previous one is one lower, wrapping from 0 to the last |
| Slides.PrevUndoesNext | src/components/RestaurantDetailCard.jsx:13-21 | going back after going forward (and the other way round) returns to the same slide |
| Slides.EmptySlideshowIsNaN | src/components/RestaurantDetailCard.jsx:15 | with zero images the index becomes NaN and stays NaN |
| Slides.SingleImageStays | src/components/RestaurantDetailCard.jsx:15-20 | a one-image slideshow stays on slide 0 |
| RestaurantDetail.SlideshowsBehave | src/components/RestaurantDetailCard.jsx:13-31 | each slideshow moves by one with wrap-around, stays in range and leaves the other alone; back undoes forward; a missing list means no move |
| RestaurantDetail.ArrowsKeepIndexValid | src/components/RestaurantDetailCard.jsx:83-87 | arrows show only for more than one image, so the first slide and the next one are both valid |
| RestaurantDetail.SlideSource | src/components/RestaurantDetailCard.jsx:83 | an index out of range or NaN gives an empty source, otherwise the asset URL of that image |
| RestaurantDetail.OrderButton | src/components/RestaurantDetailCard.jsx:150-163 | a button shows iff its link is truthy, pointing at the link with "https://" added unless it starts with "http" |
| CreatorProfile.NextSlide | src/pages/CreatorProfilePage.jsx:235-241 | moves only the slideshow of the given type |
| CreatorProfile.PrevSlide | src/pages/CreatorProfilePage.jsx:243-249 | moves only the slideshow of the given type |
| CreatorProfile.SlidesMoveByOne | src/pages/CreatorProfilePage.jsx:235-249 | from valid indices each button lands on (i + 1) mod n or (i - 1 + n) mod n, still in range |
| CreatorProfile.PrevAfterNext | src/pages/CreatorProfilePage.jsx:235-249 | going back after going forward restores both indices |
| CreatorProfile.RemoveAt | src/pages/CreatorProfilePage.jsx:221-226 | deletes exactly position index; an index outside the list removes nothing |
| CreatorProfile.RemoveAtShifts | src/pages/CreatorProfilePage.jsx:221-233 | after removing position index the earlier elements stay put and the later ones move down by one |
| CreatorProfile.RemoveImage | src/pages/CreatorProfilePage.jsx:209-233 | each of the four handlers deletes one position of its own list and leaves the other three lists unchanged |
| CreatorProfile.HandleFollowClick | src/pages/CreatorProfilePage.jsx:128-146 | signed out: go to login, no call; otherwise unfollow iff following; success flips the flag and moves the count by one; failure changes nothing |
| CreatorProfile.FollowThenUnfollow | src/pages/CreatorProfilePage.jsx:133-142 | two successful clicks restore the state |
| CreatorProfile.IsOwnProfile | src/pages/CreatorProfilePage.jsx:175 | nobody owns a profile signed out; either id equal to the route id makes it one's own; apart from the route "undefined", only such an id does |
| CreatorProfile.IsOwnProfileWithoutIds | src/pages/CreatorProfilePage.jsx:175 | a user without ids owns only the route "undefined" |
| CreatorProfile.IsOwnProfileOwnId | src/pages/CreatorProfilePage.jsx:175 | a user owns the profile at either of their ids; nobody owns a profile while signed out |
| ReelCard.HandleVideoClick | src/components/ReelCard.js:62-86 | a tap within 300 ms of the last is a double tap: it resets lastTap to 0, shows the heart, arms its timer, likes only if not liked, and leaves playback; any other tap records the time and toggles playback when a video is mounted |
| ReelCard.IsDoubleTap | src/components/ReelCard.js:64-65 | a tap not later than the last one is double, and one 300 ms or more after it is single |
| ReelCard.HeartTimerExpired | src/components/ReelCard.js:70 | the 600 ms timer hides the heart and changes nothing else |
| ReelCard.DoubleTapNeverUnlikes | src/components/ReelCard.js:66-68 | a double tap on a liked reel sends nothing |
| ReelCard.TripleTap | src/components/ReelCard.js:71 | two quick taps make a double tap and, because of the reset, a third quick tap is a single tap |
| ReelCard.DoubleTapTogglesOnce | src/components/ReelCard.js:62-86 | a quick pair of taps toggles playback exactly once |
| ReelCard.TargetPlatform | src/components/ReelCard.js:101 | a string argument is the platform, anything else gives "ZOMATO" |
| ReelCard.HandleAddToCart | src/components/ReelCard.js:100-105 | asks the cart for this reel on the chosen platform and shows the notification |
| ReelCard.CartButtonUsesZomato | src/components/ReelCard.js:263 | the card's cart button passes its click event, so it always asks for Zomato |
| ReelCard.ShowFollowButton | src/components/ReelCard.js:215 | never shown signed out; hidden for a user without `_id` on a reel without a creator id; shown to a signed-in user without ids on a reel that has one |
| ReelCard.OwnReelHidesFollow | src/components/ReelCard.js:215 | a user never sees the follow button on a reel whose creator id is one of their ids |
| ReelCard.HandleFollow | src/components/ReelCard.js:107-114 | no restaurant id: nothing happens; otherwise the count moves by one against the status read before the call, whatever the request's outcome |
| ReelCard.FollowCountDriftsOnFailure | src/components/ReelCard.js:110-112 | a failed follow leaves the status rolled back while the count stays raised |
| ReelCard.HandleFollowCorrected | src/components/ReelCard.js:107-114 | corrected handler: without a restaurant id nothing happens; its count rule is stated by CorrectedCountTracksStatus |
| ReelCard.CorrectedCountTracksStatus | src/components/ReelCard.js:107-114 | corrected: the status flips iff the request succeeds, and the count moves by one in the direction of the flip, otherwise stays |
| HomeFeed.InitialValid | src/pages/HomePage/HomePage.jsx:22-25 | the page starts with no reels, index 0, no lock and no overlay, which is a valid feed |
| HomeFeed.Loaded | src/pages/HomePage/HomePage.jsx:27-43 | the fetched reels (none on a failed fetch) replace the count, the index stays 0, nothing else changes and validity is kept |
| HomeFeed.ScrollToReel | src/pages/HomePage/HomePage.jsx:77-95 | ignored while the lock is held; otherwise takes the lock and moves only to a reel whose element exists; count, overlays and cart flag unchanged |
| HomeFeed.ScrollTimerExpired | src/pages/HomePage/HomePage.jsx:92-94 | the 500 ms timer releases the lock and changes nothing else |
| HomeFeed.ScrollUp | src/pages/HomePage/HomePage.jsx:97-99 | at the first reel or while locked nothing changes; otherwise the index goes back by one and the lock is taken; nothing but index and lock changes |
| HomeFeed.ScrollDown | src/pages/HomePage/HomePage.jsx:101-105 | at the last reel or while locked nothing changes; otherwise the index goes on by one and the lock is taken; nothing but index and lock changes |
| HomeFeed.Wheel | src/pages/HomePage/HomePage.jsx:111-124 | a wheel event with an overlay in the page or while locked does nothing; otherwise positive deltaY scrolls down, anything else up |
| HomeFeed.ScrollKeepsValid | src/pages/HomePage/HomePage.jsx:97-105 | up, down, wheel and timer keep the index inside the reel list; up moves it by 0 or -1 and down by 0 or +1 |
| HomeFeed.ScrollIsDebounced | src/pages/HomePage/HomePage.jsx:77-95 | two downward scrolls before the timer fires advance one reel; with the timer in between they advance two |
| HomeFeed.OpenComments | src/pages/HomePage/HomePage.jsx:57-60 | opening comments targets that reel and closes the likes list; the rest of the feed is untouched |
| HomeFeed.OpenLikes | src/pages/HomePage/HomePage.jsx:62-65 | opening likes targets that reel and closes the comments modal; the rest of the feed is untouched (unreachable in the program: the card never calls onShowLikes) |
| HomeFeed.CloseComments | src/pages/HomePage/HomePage.jsx:71 | clears the comments target only, keeping the feed valid |
| HomeFeed.CloseLikes | src/pages/HomePage/HomePage.jsx:72 | clears the likes target only, keeping the feed valid |
| HomeFeed.OverlaysExclusive | src/pages/HomePage/HomePage.jsx:57-72 | every open and close handler keeps at most one of the comments and likes overlays open (the likes half covers a handler the card never calls) |
| HomeFeed.ButtonsFollowOverlays | src/pages/HomePage/HomePage.jsx:133-136 | the scroll buttons hide as soon as comments or likes open on a reel, and come back once both close with the cart panel shut (the likes case covers a handler the card never calls) |
| HomeFeed.ExactlyOneActive | src/pages/HomePage/HomePage.jsx:160 | in a non-empty valid feed exactly one reel, the current one, is marked active |
| CommentsModal.TimeAgo | src/pages/CommentsModal.js:7-17 | a missing date or an age under a minute reads "just now"; otherwise the age lands in the minutes (1-59), hours (1-23) or days bucket whose range holds the floored seconds |
| CommentsModal.TimeAgoBuckets | src/pages/CommentsModal.js:9-16 | conversely, an age inside a bucket's range is always printed with that bucket and that count |
| CommentsModal.AgoText | src/pages/CommentsModal.js:12-16 | an age prints as "just now" or as its decimal count followed by m, h or d |
| CommentsModal.AgoTextInjective | src/pages/CommentsModal.js:7-17 | two ages with the same text are the same age |
| CommentsModal.HandleAddComment | src/pages/CommentsModal.js:38-42 | blank input does nothing; otherwise the comment is posted exactly as typed and the input cleared |
| CommentsModal.AddCommentPostsOnce | src/pages/CommentsModal.js:38-42 | submitting again right after a post sends nothing |
| CommentsModal.HandleAddReply | src/pages/CommentsModal.js:44-50 | blank reply does nothing; otherwise the reply is posted, the box closed and cleared, and that comment's replies expanded while every other comment's flag is kept |
| CommentsModal.HandleDelete | src/pages/CommentsModal.js:52-61 | without a pending confirmation nothing happens; otherwise the comment or reply delete matching its type is dispatched once and the confirmation cleared |
| CommentsModal.DeleteDispatchesOnce | src/pages/CommentsModal.js:52-61 | confirming twice deletes once |
| CommentsModal.StartReply | src/pages/CommentsModal.js:110-113 | Reply opens the box under that comment with "@" + the author's name + " " and leaves the rest of the sheet alone |
| CommentsModal.MentionIsPostable | src/pages/CommentsModal.js:112 | the pre-filled mention is never blank, so Post is enabled immediately |
| CommentsModal.ReplyVisibility | src/pages/CommentsModal.js:168-178 | a comment with replies shows the "View N replies" link or the list, never both; two or fewer replies are always listed; more are listed iff expanded |
| CommentsModal.SetExpanded | src/pages/CommentsModal.js:173 | the view and hide links set that comment's flag and no other |
| CommentsModal.ViewThenHide | src/pages/CommentsModal.js:170-229 | clicking "View N replies" lists them with a "Hide replies" link, and hiding brings the view link back |
| CommentsModal.ShowDeleteCases | src/pages/CommentsModal.js:118 | a signed-in user with an id sees Delete exactly on comments they wrote; a signed-out viewer sees it exactly on comments without an author |
| CommentsModal.ShowDelete | src/pages/CommentsModal.js:118 | a signed-out viewer never sees Delete on an authored comment; a user sees it on comments authored by their `id`, or by their `_id` when `id` is falsy |
| SearchLeft.FormatReel | src/components/SearchPage/SearchLeftPanel.jsx:24-35 | a reel becomes a dish entry with its id, titled by food name, then caption, then "Tasty Dish", with the creator's name, the restaurant's name or "Unknown Restaurant", and its prices (none when missing) |
| SearchLeft.DeliveryApps | src/components/SearchPage/SearchLeftPanel.jsx:38-40 | Zomato is listed iff the restaurant has a Zomato link and first when present; Swiggy iff it has a Swiggy link |
| SearchLeft.FormatRestaurant | src/components/SearchPage/SearchLeftPanel.jsx:37-54 | a restaurant becomes a restaurant entry titled by its name, else its restaurant name, carrying the apps it is reachable on |
| SearchLeft.RestaurantSubtitle | src/components/SearchPage/SearchLeftPanel.jsx:48 | the subtitle is "Zomato & Swiggy", "Zomato", "Swiggy" or "Delivery Available" according to which links exist |
| SearchLeft.AllData | src/components/SearchPage/SearchLeftPanel.jsx:56 | the searchable list is every formatted reel followed by every formatted restaurant, in order |
| SearchLeft.DishesBeforeRestaurants | src/components/SearchPage/SearchLeftPanel.jsx:56 | no restaurant comes before a dish in the searchable list |
| SearchLeft.Matches | src/components/SearchPage/SearchLeftPanel.jsx:73-77 | a match needs some searchable field; a title containing the lower-cased term always matches |
| SearchLeft.EmptyTermMatches | src/components/SearchPage/SearchLeftPanel.jsx:73-77 | the empty term matches exactly the entries with some searchable field |
| SearchLeft.Results | src/components/SearchPage/SearchLeftPanel.jsx:66-79 | a blank term gives no results, and results never outnumber the list |
| SearchLeft.ResultsMeaning | src/components/SearchPage/SearchLeftPanel.jsx:66-79 | an entry is a result iff the term is not blank and the lower-cased term occurs in its lower-cased title, subtitle or (for a restaurant) name |
| SearchLeft.ResultsKeepOrder | src/components/SearchPage/SearchLeftPanel.jsx:66-77 | a single entry is a result iff the term is not blank and the entry matches it, and the results of a joined list are the joined results, so they keep the list's order |
| SearchLeft.TitleMatchesItself | src/components/SearchPage/SearchLeftPanel.jsx:72-74 | an entry is found by its own title whatever the case of the term |
| SearchLeft.BestApp | src/components/SearchPage/SearchLeftPanel.jsx:102-113 | a dish's app is Zomato when it has a Zomato price, else Swiggy when it has a Swiggy price, else Zomato at 199 |
| SearchLeft.BestAppIgnoresPrice | src/components/SearchPage/SearchLeftPanel.jsx:107-109 | a Zomato price wins even when the Swiggy price is lower |
| SearchLeft.SelectItem | src/components/SearchPage/SearchLeftPanel.jsx:81-132 | the clicked item's id and name are the ones selected; a restaurant is shown with its first app or "Various" at "Menu varies", leaving term and recents alone; a dish is shown with its best app and price, recorded at the front of the recent searches as its id, its name (or "") and the current time, without duplicates, and the term is cleared |
| SearchLeft.SelectDishTwice | src/components/SearchPage/SearchLeftPanel.jsx:129 | picking the same dish twice leaves one entry for it in the recent searches |
| SearchLeft.Submit | src/components/SearchPage/SearchLeftPanel.jsx:134-138 | Enter selects the first result exactly when there is one |
| SearchLeft.BlankSubmitDoesNothing | src/components/SearchPage/SearchLeftPanel.jsx:67-70 | Enter on a blank term selects nothing |
| SearchRight.Tag | src/components/SearchPage/SearchRightPanel.jsx:50 | "Chef's Choice" exactly for a rating of at least 4.5, otherwise "Top Rated"; a missing rating is never Chef's Choice |
| SearchRight.PlatformRow | src/components/SearchPage/SearchRightPanel.jsx:91-134 | a platform row shows iff it has a price or a link; it reads the price or "Menu", and has a GO link, normalised with a protocol, iff it has a link |
| SearchRight.Render | src/components/SearchPage/SearchRightPanel.jsx:6-154 | no selection shows the empty state; a selection shows its tag, both platform rows, the "Order links unavailable" note iff all prices and links are missing, and "ORDER FROM" with the restaurant name or "RESTAURANT" |
| SearchRight.UnavailableIffNoRows | src/components/SearchPage/SearchRightPanel.jsx:136 | the unavailable note shows exactly when neither platform row does |
| SearchRight.OrderClick | src/components/SearchPage/SearchRightPanel.jsx:147-151 | the order button opens a tab iff some link exists, preferring Zomato's, otherwise it shows the details alert |
| SearchRight.OrderMatchesFirstGoLink | src/components/SearchPage/SearchRightPanel.jsx:103-148 | the order button opens the same address as the first GO link on the card |
| OrderSelection.BaseUrlsDistinct | src/pages/OrderSelectionPage.jsx:12-28 | the three apps' addresses are pairwise different, so each opened tab identifies its app |
| OrderSelection.SelectApp | src/pages/OrderSelectionPage.jsx:66-71 | choosing an app records it for that item and leaves every other item's choice as it was |
| OrderSelection.RemoveItem | src/pages/OrderSelectionPage.jsx:73-80 | removing an item drops its choice only, and asks the cart to remove the line by its id with no platform; a refused removal leaves the cart lines unchanged |
| OrderSelection.OpenUrls | src/pages/OrderSelectionPage.jsx:90-95 | never more tabs than cart lines; when every line has a choice, one tab per line in cart order at its chosen app's address |
| OrderSelection.ProceedToOrder | src/pages/OrderSelectionPage.jsx:82-96 | proceeding alerts and opens nothing unless the number of choices equals the number of cart lines, and otherwise opens the tabs of the selected lines |
| OrderSelection.GateMeansEverySelected | src/pages/OrderSelectionPage.jsx:82-98 | on a cart with distinct ids whose choices all name cart lines, the count gate passes iff every line has a choice, and then exactly one tab per line opens with that line's app |
| OrderSelection.SelectionsStayInCart | src/pages/OrderSelectionPage.jsx:66-80 | choosing an app for a cart line keeps every choice naming a line of the cart; so does removing an item, when the cart refuses the removal and when it succeeds with a refetched cart that still holds every other line |
| OrderSelection.RenderedProceedOpensAll | src/pages/OrderSelectionPage.jsx:82-98 | on a page whose summary rendered, a passing gate opens one tab per cart line, in cart order, at that line's app |
| OrderSelection.CountGateIsWeaker | src/pages/OrderSelectionPage.jsx:84-98 | the count gate cannot tell a stale choice from a missing one: it passes with a line unchosen, and the summary then cannot render (it looks up the app of every line), so the button is never reached |
| CreatorUpload.CheckUpload | src/pages/CreatorUploadPage.jsx:56-85 | an unverified creator, then an unfinished setup, then a missing video, food name or category is refused with its own message; otherwise the form is sent as typed, with each price attached exactly in manual mode when it was typed |
| CreatorUpload.PosModeSendsNoPrices | src/pages/CreatorUploadPage.jsx:82-85 | a creator in POS mode never sends a price, whatever was typed |
| CreatorUpload.HandleUpload | src/pages/CreatorUploadPage.jsx:56-109 | a refused form keeps its fields and shows the refusal; a 201 clears every field, shows the server's message or "Served to your menu 🍽️" and schedules the creator's profile page; another status keeps "Preparing your dish..."; an error shows the server's message or the fallback |
| CreatorUpload.CreatedUploadCannotRepeat | src/pages/CreatorUploadPage.jsx:91-98 | after a created upload the cleared form is refused for missing fields, so the same reel cannot be sent twice |
| SetupRestaurant.SignedOutStays | src/pages/SetupRestaurantPage.jsx:24-28 | a signed-out visitor is not redirected, while a user whose role is not exactly "CREATOR" (even lower-case "creator") is |
| SetupRestaurant.Gst | src/pages/SetupRestaurantPage.jsx:34-35 | the stored GST number is the first 15 characters of the typed value, each in upper case |
| SetupRestaurant.GstIdempotent | src/pages/SetupRestaurantPage.jsx:35 | normalising a normalised GST number changes nothing |
| SetupRestaurant.GstKeepsCanonical | src/pages/SetupRestaurantPage.jsx:35 | a GST number already at most 15 characters and upper case is stored as typed |
| SetupRestaurant.HandleChange | src/pages/SetupRestaurantPage.jsx:30-39 | a change updates only its own field: the photo takes the first picked file, the GST number is normalised, every other field is stored verbatim |
| SetupRestaurant.GstStaysShort | src/pages/SetupRestaurantPage.jsx:30-39 | whatever is typed into any field, the stored GST number never exceeds 15 characters |
| SetupRestaurant.CheckSubmit | src/pages/SetupRestaurantPage.jsx:44-52 | a missing price mode is reported first, then a missing photo; the form is sent unchanged exactly when both are present |
| SetupRestaurant.HandleSubmit | src/pages/SetupRestaurantPage.jsx:41-79 | a refused form shows its message; the page navigates, to the verification-pending page, only after a sent form the server answers with that next step; an error shows the server's message or the fallback |
| Register.InitialRole | src/pages/RegisterPage.js:8 | the page starts with the role passed in navigation state when there is one, otherwise "user" |
| Register.PresetRoleIsKept | src/pages/RegisterPage.js:8-9 | the role toggle is hidden exactly when a role was passed, and then the passed role is the one used; with the toggle the page starts as a diner |
| Register.CheckRegister | src/pages/RegisterPage.js:30-40 | any empty field is reported first, then a password mismatch; otherwise the form is sent with the role in upper case |
| Register.EmptyReportedFirst | src/pages/RegisterPage.js:30-38 | an empty confirmation is reported as a missing field, not as a mismatch |
| Register.HandleRegister | src/pages/RegisterPage.js:27-49 | a refused form shows its message and stays; a pending account goes to code entry carrying its email and role; any other success goes home; a failure shows the server's error or "Registration failed" |
| Register.NavigatesOnlyAfterSend | src/pages/RegisterPage.js:40-46 | the page navigates only after a form it actually sent succeeded |
| ResetPassword.CheckReset | src/pages/ResetPasswordPage.js:18-28 | an empty field is reported first, then a mismatch; otherwise the token and the new password are sent |
| ResetPassword.HandleSubmit | src/pages/ResetPasswordPage.js:16-37 | a refused form shows its message; success shows the reset notice and schedules the login page; a failure shows the server's error, which may be missing |
| ResetPassword.OwnMessagesStyled | src/pages/ResetPasswordPage.js:52 | of the page's own messages only the success notice gets the success style |
| VerifyOtp.Email | src/pages/VerifyOtpPage.jsx:15 | the code is checked against the address passed in navigation state, or "" when none was passed |
| VerifyOtp.Capped | src/pages/VerifyOtpPage.jsx:58 | the field keeps at most the first six typed characters, and all of a shorter entry |
| VerifyOtp.OtpInput | src/pages/VerifyOtpPage.jsx:57-58 | the stored code has at most six characters, all digits, and keeps every digit among the characters the field accepted; their order and repetitions are fixed by OtpInputMeaning |
| VerifyOtp.OtpInputMeaning | src/pages/VerifyOtpPage.jsx:57-58 | only the first six characters count; a single character is kept iff it is a digit; within the cap a joined input gives the joined codes, so digits keep their order and repetitions |
| VerifyOtp.OtpInputIdempotent | src/pages/VerifyOtpPage.jsx:57 | applying the input rule to the stored code changes nothing |
| VerifyOtp.SixDigitsKept | src/pages/VerifyOtpPage.jsx:57-58 | a six-digit code is stored exactly as typed |
| VerifyOtp.CheckOtp | src/pages/VerifyOtpPage.jsx:19-22 | a code is sent, with the email, exactly when it has at least six characters; otherwise the 6-digit notice is shown |
| VerifyOtp.SentCodeIsSixDigits | src/pages/VerifyOtpPage.jsx:19-58 | whatever is typed, a code that passes the field and the check is exactly six digits |
| VerifyOtp.NextRoute | src/pages/VerifyOtpPage.jsx:28-33 | a verified account still lacking restaurant details goes to the setup page; every other one goes home |
| VerifyOtp.HandleVerify | src/pages/VerifyOtpPage.jsx:17-38 | a short code shows the notice and stays; a verified code clears the error and navigates by the next step; a failure shows the server's error or the fallback, and stays |
| VerifyOtp.RegisterHandsOverEmail | src/pages/VerifyOtpPage.jsx:15 | a pending sign-up arrives with the non-empty address it registered, so the code is checked against that address |
| Login.NextRoute | src/pages/LoginPage.js:33-40 | a signed-in account lacking restaurant details goes to the setup page, one awaiting verification to the pending page, everyone else home |
| Login.RoutingAgreesWithOtp | src/pages/LoginPage.js:33-40 | sign-in routes exactly as code verification does, except that only sign-in knows the verification-pending page |
| Login.Settle | src/pages/LoginPage.js:32-43 | a successful answer navigates by its next step and leaves the page alone; a failed one shows the server's error, possibly missing, and stays |
| Login.HandleLogin | src/pages/LoginPage.js:27-44 | an empty email or password shows the fill-all notice and sends nothing; otherwise the answer is settled; the page navigates iff both are filled and the sign-in succeeded |
| Login.HandleGoogle | src/pages/LoginPage.js:63-83 | an undecodable credential or a thrown call shows the processing error; a server answer is settled like a password sign-in |
| Login.GoogleError | src/pages/LoginPage.js:85-87 | a failed Google widget shows its notice and changes nothing else |
| Login.BothSignInsAgree | src/pages/LoginPage.js:27-83 | a filled-in password sign-in and a Google sign-in with the same server answer end the same way |
| Login.HandleForgot | src/pages/LoginPage.js:49-61 | without an email the page asks for one; a sent link shows the notice and leaves the forgot form; a failure shows the server's error; role and fields are kept |
| Login.SwitchRole | src/pages/LoginPage.js:121-139 | a role button sets that role and clears the message, keeping the fields and the form shown |
| Login.ShowForgot | src/pages/LoginPage.js:166-191 | the forgot and back links switch only which form is shown |
| Login.HandlersKeepRole | src/pages/LoginPage.js:9-139 | from the first render on, every handler leaves the role as diner or creator |
| Login.GoogleFollowsRole | src/pages/LoginPage.js:203 | Google sign-in is offered to diners and hidden from creators |
| Login.JoinNowKeepsRole | src/pages/LoginPage.js:220 | "Join Now" hands the chosen role to sign-up, which then starts with that role and hides its own toggle |
| Login.OwnMessagesStyled | src/pages/LoginPage.js:142-145 | the reset-link notice gets the success style and the fill-all notice does not |
| Sidebar.ProfilePath | src/components/Sidebar/Sidebar.jsx:27 | the profile entry always links under "/creator/", to the user's id or else their database id |
| Sidebar.Items | src/components/Sidebar/Sidebar.jsx:15-29 | everyone gets Home, Search and Saved in that order; creators, and only they, also get Create and their Profile |
| Sidebar.Role | src/components/Sidebar/Sidebar.jsx:21 | signed out, or with neither field truthy, the role is ""; it never holds an upper-case letter |
| Sidebar.IsActive | src/components/Sidebar/Sidebar.jsx:13 | a path of another length, such as a sub-page, never highlights the item: the match is exact |
| Sidebar.RoleIgnoresCase | src/components/Sidebar/Sidebar.jsx:21 | an upper- or mixed-case creator role in either field still yields the creator items |
| Sidebar.UserTypeWins | src/components/Sidebar/Sidebar.jsx:21 | a truthy userType takes precedence over role, and a signed-out visitor is no creator |
| Common.FilterConcat | src/context/SearchContext.jsx:35 | `filter` distributes over concatenation |
| Common.FilterSingle | src/context/SearchContext.jsx:35 | `filter` keeps a single element iff the test accepts it |
| Common.FilterKeepsDistinct | src/context/SearchContext.jsx:35 | `filter` keeps any key that was unique across the list unique across the result |
| Sidebar.PathsDistinct | src/components/Sidebar/Sidebar.jsx:15-29 | the menu's paths are pairwise different |
| Sidebar.AtMostOneActive | src/components/Sidebar/Sidebar.jsx:13-58 | whatever the current path, at most one item is highlighted |
| CreatorUpload.CreateLinkCanBounce | src/pages/CreatorUploadPage.jsx:47-49 | the page admits only an exactly lower-case "creator" userType: a signed-out visitor and an upper-case "CREATOR" are sent home, although the menu offers the latter its Create item |

## Left out

- HTTP calls through the API client are not performed. Each becomes an outcome parameter, such as a server answer, a rejection, no response or a set-up error.
- Persistence is not modelled: `localStorage` reads and writes, and the JSON parsing of the cart and recent searches.
- Overlapping asynchronous requests are not interleaved. Each handler runs as one call from start to settlement. The rollbacks write back the value captured at the start of their own call.
- DOM, media and scroll side effects (play and pause, `scrollIntoView`, wheel and key listeners, body styles) are reduced to the decisions that drive them. The same holds for `FileReader`, `FormData`, object URLs, `window.open` and `alert`.
- Real timers are not modelled. Each `setTimeout` is an explicit expiry function (`ScrollTimerExpired`, `HeartTimerExpired`, `SnackbarExpire`), and a scheduled navigation is returned as its target.
- The random mock prices and ratings of the order-selection page are non-deterministic, so they are left out, together with the text of that page's summary; only whether the summary can render is modelled.
- Floating-point display is left out. Ratings are kept in tenths, and prices and counts are integers.
- Checkout grouping by restaurant is computed by the server. The model takes the groups as given and models only the client's open-app decision.
- Case mapping and `trim` are ASCII-only. JavaScript maps the full Unicode range.
- `CommentsModal.TimeAgo` assumes a parseable date given in milliseconds. An unparseable date, which would print "NaNd", is not modelled.
- The loading and uploading flags only disable buttons, and are not modelled.
- The sign-in and sign-up pages' redirect of an already signed-in user is not modelled.
- The menu's logout handler is not modelled.
- The upload page's fetch of the creator's restaurant serves only as display context, and is not modelled.
- The one-time-code field's `maxLength` is modelled as a cap on the typed value before the digit filter (`VerifyOtp.Capped`). In a browser the cap applies to the field's contents.
- `SetupRestaurant.HandleChange` covers the page's seven named fields. An input with any other name would add a new key to the form, and is not modelled.
- Wiring and presentational files are not part of this model:
  - `src/App.jsx` routing, `SearchPage.js`, `LikesListModal.jsx`, `Snackbar.js`, `Loader.js`, `CartNotification.js` and `RestaurantCard.js`;
  - `CartPage.js`, which only delegates to the cart store;
  - `PosSetupPage.jsx` and `VerificationPendingPage.jsx`, which are request and redirect plumbing;
  - the touch-gesture `CartDrawer.js`;
  - the static fixtures under `src/data`;
  - the authentication store `AuthContext.js`, Google OAuth and `jwtDecode`;
  - the Node script `test_register.js`.
- OrderSelection.CountGateIsWeaker: the program crashes while rendering the summary when the gate passes with a line unchosen (`apps[undefined].name`). The model states that the summary cannot render, not the exception.
- Checkout.GroupsAfter: a successful response without a `data` field stores `undefined`, and the render then throws on `.length`. The model always receives a list of groups.
- HomeFeed.OpenLikes: the home page passes `onShowLikes` to the reel card, but the card never reads it, so the program never opens the page-level likes list. The handler is modelled as written; the likes halves of `OverlaysExclusive` and `ButtonsFollowOverlays` describe a state the running page never enters.
- Follow.BeginToggle: `currentStatus` is a boolean in the model. The card can pass `undefined` (a missing `isFollowing`); the request then follows, and a failure writes `undefined` rather than `false` back to the local map.
- OrderSelection.OpenUrls: the contract fixes the list of tabs only when every cart line has a choice. With some lines unchosen it bounds only the number of tabs. `CountGateIsWeaker` exhibits such a case.

## Findings

| source | as written | input that shows it | evidently intended | confidence | as-written member | corrected member |
|---|---|---|---|---|---|---|
| src/components/ReelCard.js:107-114 | the follower count moves by one as soon as the button is clicked, before the request settles, and is never reverted | a signed-in user who does not yet follow the restaurant clicks Follow and the request fails: the follow store rolls the status back to "not following", but the card's count stays one higher | the count moves only when the follow state actually flips, so a failed request leaves both unchanged | not executed | ReelCard.HandleFollow, ReelCard.FollowCountDriftsOnFailure | ReelCard.HandleFollowCorrected, ReelCard.CorrectedCountTracksStatus |

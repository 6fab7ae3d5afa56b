# PhotoDel, modelled in Dafny

PhotoDel is an iOS app for tidying a photo library one picture at a time. The
user swipes through the library:

- left marks a photo for deletion, and a second left swipe on it unmarks it;
- up marks it as a favourite;
- right and down skip it;
- undo steps back.

Nothing touches the library until the user commits. The commit sends at most
two requests to the photo store: one deletion request and one favouriting
request. Both staging sets are emptied only if no request fails. Around
this sit:

- the library index, which loads all assets newest-first and classifies
  videos and screenshots;
- the statistics shown on the screens;
- the time and album groupings;
- the screens' own decisions: gesture thresholds, search, navigation
  equality, badges and image loading.

The project models that core:

| file | module | models |
|---|---|---|
| `collections.dfy` | `Collections` | `Optional`, `Array.filter` and `Array.firstIndex(where:)` |
| `platform.dfy` | `Platform` | the calendar and the screen, as parameters |
| `models.dfy` | `Models` | the value types of Models.swift |
| `library.dfy` | `Library` | `PhotoLibraryManager`, as a class |
| `triage.dfy` | `Triage` | `DataManager`, as a class, with its pure queries |
| `swipe_view.dfy` | `SwipeView` | the swipe card of SwipePhotoView.swift |
| `home.dfy` | `Home` | navigation destinations and card figures of HomeView.swift |
| `albums_screen.dfy` | `AlbumsScreen` | search, row drag and add-album rules of AlbumsView.swift |
| `real_photo.dfy` | `RealPhoto` | the photo tile and grid of RealPhotoView.swift |

Several things are parameters rather than modelled:

- The photo store: what a fetch returns, and whether a request succeeds.
- The calendar: `Calendar` is a record of functions over an opaque `Date`.
- The screen: `Device` holds its size, its scale, and whether the system
  has the screenshot subtype.

Code that runs on other queues is modelled as the sequence of steps it
performs. A `DataManager` member that the views call but DataManager.swift
does not define is modelled as the action, index or request that the view
would issue.

A few behaviours of the code, as modelled:

- **The commit.** Success empties both sets as they stand when the requests
  finish, so entries staged while the requests ran are emptied too. Failure
  leaves both sets exactly as they are. Nothing snapshots the sets or
  restores them.
- **No extra machinery.** Loading enumerates the whole fetch in one loop.
  There is no paging, no image cache, no free-storage check and no
  authorization timeout.
- **Loading progress.** It goes 0, 0.3, 0.5, 0.7, 1.0. The shares are not
  60/30/10.
- **Time windows.** The windows of `getPhotosForTimeGroup` do not cover
  every dated asset. An asset dated after "two months ago", but before last
  month began, is in no window (`Triage.WindowsLeaveAGap`). Nor are the
  windows exclusive. When this week began last month, an asset from the
  part of the week that fell in last month is listed under both this week
  and last month (`Triage.ThisWeekOverlapsLastMonth`).
- **Progress ratios.** A category's progress is not capped at 1. Every
  staged asset counts as organised in every category (`Home.ProgressCanExceedOne`).
- **Doubles as reals.** Swift's `Double` arithmetic is modelled as exact
  real arithmetic. This covers progress ratios, gesture offsets, rotation,
  thresholds and sizes. Rounding of binary fractions is therefore not
  modelled (see `Home.TimelinePercent` under "Left out").
- **Screenshot badge.** The tile's badge trusts the store's screenshot flag
  alone. The manager's classifier also accepts screen-sized images
  (`RealPhoto.ScreenSizedImageNotBadged`).

## Model

| member | source | states |
|---|---|---|
| Collections.Filter | IOSAPP/PhotoDel/PhotoLibraryManager.swift:76 | Swift's `filter`: the result keeps exactly the elements that pass, in their original order, and is never longer |
| Collections.FilterKeepsEveryMatch | IOSAPP/PhotoDel/PhotoLibraryManager.swift:83-85 | a passing element keeps every one of its occurrences; a failing one keeps none |
| Collections.FilterKeepsAll | IOSAPP/PhotoDel/AlbumsView.swift:143-150 | a filter that every element passes returns its input unchanged |
| Collections.FirstIndex | IOSAPP/PhotoDel/AlbumsView.swift:155 | `firstIndex(where:)`: absent iff no element matches; otherwise a matching index with no match before it |
| Models.ProgressColor | IOSAPP/PhotoDel/Models.swift:82-90 | every progress value falls in exactly one band: ≥0.9 yellow, [0.8,0.9) green, [0.6,0.8) blue, [0.4,0.6) teal, below 0.4 purple |
| Models.TimeGroupColors | IOSAPP/PhotoDel/Models.swift:72-90 | today (0.85) is green, this week blue, January 2025 teal, December 2024 blue, November 2024 (0.92) yellow |
| Models.NewPhotoDefaults | IOSAPP/PhotoDel/Models.swift:105-121 | a photo built from the required arguments is unprocessed, in "all", not a video, 3.2 MB, from "iPhone 15 Pro", with no location |
| Models.PhotoTimeGroup | IOSAPP/PhotoDel/Models.swift:129-147 | today first; this week only if not today; then January 2025, December 2024, and every other date November 2024; each as an iff on the date |
| Models.AlbumPhotoCount | IOSAPP/PhotoDel/Models.swift:167-169 | the count is zero exactly for an album without photos |
| Models.CoverPhoto | IOSAPP/PhotoDel/Models.swift:171-173 | the first photo, absent exactly when the count is zero |
| Models.FormattedSpaceSaved | IOSAPP/PhotoDel/Models.swift:185-191 | MB, unchanged, iff below 1000; otherwise the GB figure times 1024 is the MB figure |
| Models.TruncateToInt | IOSAPP/PhotoDel/Models.swift:194-195 | `Int(Double)` rounds toward zero: within one below a non-negative value, within one above a negative one |
| Models.TruncatingDivision | IOSAPP/PhotoDel/Models.swift:194-195 | Swift's `/` and `%` recombine to the dividend, and the remainder has the dividend's sign and is smaller than the divisor |
| Models.FormattedTimeSpent | IOSAPP/PhotoDel/Models.swift:193-197 | minutes·60 + seconds equals the whole seconds; 0 ≤ seconds < 60 for non-negative time, −60 < seconds ≤ 0 for negative time |
| Models.NegativeTimeSplit | IOSAPP/PhotoDel/Models.swift:193-197 | −61.5 s splits as −1 min −1 s (toward zero), not as Euclidean division would |
| Library.IsScreenshot | IOSAPP/PhotoDel/PhotoLibraryManager.swift:115-137 | true when the subtype exists and the flag is set; otherwise true iff both pixel dimensions are strictly within 10 of the screen's |
| Library.VideosOf | IOSAPP/PhotoDel/PhotoLibraryManager.swift:76 | exactly the video assets, as an order-preserving subsequence of the fetch |
| Library.ScreenshotsOf | IOSAPP/PhotoDel/PhotoLibraryManager.swift:83-85 | exactly the images `isScreenshot` accepts, as an order-preserving subsequence |
| Library.VideosAndScreenshotsDisjoint | IOSAPP/PhotoDel/PhotoLibraryManager.swift:76-85 | no asset is in both the videos and the screenshots list |
| Library.TotalSizeOfPhotos | IOSAPP/PhotoDel/PhotoLibraryManager.swift:258-261 | the estimate is a whole multiple of 3,000,000 bytes, one per asset, and zero only for no assets |
| Library.TotalSizeAdds | IOSAPP/PhotoDel/PhotoLibraryManager.swift:258-261 | the estimate of two lists joined is the sum of their estimates |
| Library.LoadPassProgressRises | IOSAPP/PhotoDel/PhotoLibraryManager.swift:54-109 | a pass starts at 0, rises strictly, ends at 1, and loading is on at every step except the last |
| Library.EnumerateObjects | IOSAPP/PhotoDel/PhotoLibraryManager.swift:66-69 | the append loop over a fetch result yields the result in order |
| Library.PhotoLibraryManager.constructor | IOSAPP/PhotoDel/PhotoLibraryManager.swift:6-16 | status not determined, empty lists, not loading, progress 0, no fetch result |
| Library.PhotoLibraryManager.CheckAuthorizationStatus | IOSAPP/PhotoDel/PhotoLibraryManager.swift:34-36 | the status becomes the store's, nothing else changes |
| Library.PhotoLibraryManager.LoadPhotos | IOSAPP/PhotoDel/PhotoLibraryManager.swift:51-111 | without authorization nothing changes; otherwise all four lists are published, progress is 1, loading is off, and the pass went through exactly the steps of `LoadPass` |
| Library.PhotoLibraryManager.LoadInBackground | IOSAPP/PhotoDel/PhotoLibraryManager.swift:57-110 | the off-main part posts 0.3, 0.5, 0.7 with loading on, then publishes videos and screenshots filtered from the fetch and the favourites query as fetched |
| Library.PhotoLibraryManager.PostProgress | IOSAPP/PhotoDel/PhotoLibraryManager.swift:71-73 | one progress update, recorded as one step of the pass |
| Library.PhotoLibraryManager.Publish | IOSAPP/PhotoDel/PhotoLibraryManager.swift:102-109 | all four lists at once, progress 1, loading off |
| Library.PhotoLibraryManager.AuthorizationResolved | IOSAPP/PhotoDel/PhotoLibraryManager.swift:38-47 | records the granted status; loads only when it is `.authorized`, and leaves the lists alone otherwise |
| Library.PhotoLibraryManager.PhotoLibraryDidChange | IOSAPP/PhotoDel/PhotoLibraryManager.swift:267-276 | without a stored result or change details nothing changes; otherwise the changed result is stored and a full `loadPhotos` follows |
| Triage.PhotosInWindow | IOSAPP/PhotoDel/DataManager.swift:378-400 | exactly the assets of the window, as an order-preserving subsequence |
| Triage.UndatedInNoWindow | IOSAPP/PhotoDel/DataManager.swift:383 | an asset without a creation date is in no window |
| Triage.AdjacentWindowsDisjoint | IOSAPP/PhotoDel/DataManager.swift:386-391 | today and this week are disjoint, and so are this week and this month |
| Triage.WindowsLeaveAGap | IOSAPP/PhotoDel/DataManager.swift:392-397 | a dated asset can fall in no window at all |
| Triage.ThisWeekOverlapsLastMonth | IOSAPP/PhotoDel/DataManager.swift:387-393 | this week and last month are not exclusive: one asset can be listed under both |
| Triage.GetAlbumType | IOSAPP/PhotoDel/DataManager.swift:432-447 | user-created iff the subtype is not one of the five smart subtypes |
| Triage.SmartAlbumTypesDistinct | IOSAPP/PhotoDel/DataManager.swift:432-447 | two smart subtypes map to the same album type only if they are the same subtype |
| Triage.AlbumInfoFor | IOSAPP/PhotoDel/DataManager.swift:336-345 | the album counts the collection's assets, and its thumbnail is the first asset, absent iff the collection is empty |
| Triage.NonEmptyAlbums | IOSAPP/PhotoDel/DataManager.swift:331-346 | only non-empty collections become albums, all of the subtype's type |
| Triage.NonEmptyAlbumsInOrder | IOSAPP/PhotoDel/DataManager.swift:331-346 | the albums follow the non-empty collections one for one in enumeration order: position i holds the i-th non-empty collection |
| Triage.NonEmptyAlbumsExactly | IOSAPP/PhotoDel/DataManager.swift:331-346 | every non-empty collection is listed and every listed album comes from a non-empty collection |
| Triage.SmartAlbums | IOSAPP/PhotoDel/DataManager.swift:316-347 | every system album is non-empty and has a thumbnail; over the five smart subtypes, none is user-created |
| Triage.SmartAlbumsAreTheNonEmptyCollections | IOSAPP/PhotoDel/DataManager.swift:324-347 | every non-empty collection of every requested subtype is listed, typed by its subtype, and every listed album is such a collection |
| Triage.UserAlbums | IOSAPP/PhotoDel/DataManager.swift:350-369 | one user-created album per user collection, in order, empty ones included |
| Triage.CollectNonEmptyAlbums | IOSAPP/PhotoDel/DataManager.swift:331-346 | the loop over one subtype's collections builds exactly `NonEmptyAlbums` |
| Triage.CollectSmartAlbums | IOSAPP/PhotoDel/DataManager.swift:324-347 | the loop over the five smart subtypes builds exactly `SmartAlbums` |
| Triage.CollectUserAlbums | IOSAPP/PhotoDel/DataManager.swift:356-369 | the loop over the user's collections builds exactly `UserAlbums` |
| Triage.OnRequestCompleted | IOSAPP/PhotoDel/DataManager.swift:149-153 | a failed request sets the error flag and records its error; a successful one changes nothing |
| Triage.DataManager.constructor | IOSAPP/PhotoDel/DataManager.swift:12-27 | default statistics, cursor 0, both staging sets and all caches empty, access not yet requested, a fresh library manager |
| Triage.DataManager.CurrentRealPhoto | IOSAPP/PhotoDel/DataManager.swift:63-66 | absent iff the cursor is at or past the end; otherwise the photo under the cursor |
| Triage.DataManager.MoveToNextRealPhoto | IOSAPP/PhotoDel/DataManager.swift:68-72 | advances only when before the last photo; never moves back |
| Triage.DataManager.MoveToPreviousRealPhoto | IOSAPP/PhotoDel/DataManager.swift:74-78 | steps back only when above 0, so a non-negative cursor stays non-negative |
| Triage.DataManager.UpdateStats | IOSAPP/PhotoDel/DataManager.swift:190-197 | counts match the set sizes, 3 MB saved per deletion candidate, total is the library count; kept and time fields untouched |
| Triage.DataManager.AddToDeleteCandidates | IOSAPP/PhotoDel/DataManager.swift:81-85 | set insertion (idempotent), only the delete set and the stats change; the stats are recounted: counts match the sets, total is the library count, kept and time fields untouched |
| Triage.DataManager.RemoveFromDeleteCandidates | IOSAPP/PhotoDel/DataManager.swift:87-91 | set removal (idempotent), only the delete set and the stats change; the stats are recounted, kept and time fields untouched |
| Triage.DataManager.AddToFavoriteCandidates | IOSAPP/PhotoDel/DataManager.swift:93-97 | set insertion into the favourite set only; the stats are recounted, kept and time fields untouched |
| Triage.DataManager.HandleLeftSwipe | IOSAPP/PhotoDel/DataManager.swift:108-117 | with no current photo nothing changes; otherwise exactly the current photo's delete membership flips, the favourites stay, the stats are recounted (kept and time fields untouched), and the cursor advances |
| Triage.DataManager.HandleRightSwipe | IOSAPP/PhotoDel/DataManager.swift:119-122 | only the cursor advances |
| Triage.DataManager.HandleUpSwipe | IOSAPP/PhotoDel/DataManager.swift:124-128 | with no current photo nothing changes; otherwise the photo is added to favourites (never removed), the delete set stays, the stats are recounted (kept and time fields untouched), and the cursor advances |
| Triage.DataManager.HandleDownSwipe | IOSAPP/PhotoDel/DataManager.swift:130-133 | only the cursor advances |
| Triage.DataManager.UndoLastAction | IOSAPP/PhotoDel/DataManager.swift:135-139 | only the cursor steps back; neither set is reverted |
| Triage.DataManager.ExecuteBatchOperations | IOSAPP/PhotoDel/DataManager.swift:142-168 | a request is issued iff its set is non-empty, and it carries the whole set |
| Triage.DataManager.BatchOperationsFinished | IOSAPP/PhotoDel/DataManager.swift:142-180 | success iff no issued request failed; on success both sets are emptied and the stats recounted, kept and time fields untouched; on failure nothing changes; the error reported is the last failed request's |
| Triage.DataManager.CancelAllOperations | IOSAPP/PhotoDel/DataManager.swift:182-187 | both sets empty; the stats are recounted: delete and favourite counts and space saved zero, total is the library count, kept and time fields untouched |
| Triage.DataManager.GetOrganizedCount | IOSAPP/PhotoDel/DataManager.swift:213-219 | the two set sizes added, whatever the category, and equal to the stats' counts when those match |
| Triage.DataManager.RealPhotos | IOSAPP/PhotoDel/DataManager.swift:200-211 | each category browses its own library list |
| Triage.DataManager.PhotosForTimeGroup | IOSAPP/PhotoDel/DataManager.swift:378-400 | the library's assets in the window, in library order |
| Triage.DataManager.GetAllAlbums | IOSAPP/PhotoDel/DataManager.swift:450-452 | the system albums followed by the user albums |
| Triage.DataManager.GetPhotosForAlbum | IOSAPP/PhotoDel/DataManager.swift:403-429 | an album with a collection lists its assets in order; without one, the library list its type stands for, or none |
| Triage.TimeGroups | IOSAPP/PhotoDel/DataManager.swift:268-303 | five summaries in window order, each counting exactly its window's photos, never more than the library holds |
| Triage.DataManager.LoadTimeGroups | IOSAPP/PhotoDel/DataManager.swift:268-303 | without authorization nothing changes; otherwise five summaries in window order, each counting its window, with progress 0.2, 0.1, 0.15, 0.05, 0 |
| Triage.DataManager.LoadAlbums | IOSAPP/PhotoDel/DataManager.swift:306-375 | without authorization nothing changes; otherwise the system albums are the non-empty smart collections subtype by subtype, and the user albums are all user collections |
| Triage.DataManager.RequestPhotoLibraryAccess | IOSAPP/PhotoDel/DataManager.swift:49-51 | access is recorded as requested |
| Triage.DataManager.ReloadAfterAccessRequest | IOSAPP/PhotoDel/DataManager.swift:53-59 | one second later, with access granted the five time groups and both album lists are reloaded; otherwise nothing changes |
| SwipeView.ClassifySwipe | IOSAPP/PhotoDel/SwipePhotoView.swift:292-311 | delete iff abs(w)>100 and w<0; keep iff abs(w)>100 and w>0; favourite or skip by the sign of h only when abs(w)≤100 and abs(h)>100; nothing iff both are ≤100 |
| SwipeView.HorizontalWins | IOSAPP/PhotoDel/SwipePhotoView.swift:294-302 | past the horizontal threshold the vertical displacement has no effect |
| SwipeView.MirroredSwipe | IOSAPP/PhotoDel/SwipePhotoView.swift:294-301 | mirroring a horizontal swipe swaps delete and keep |
| SwipeView.SwipeIndicator | IOSAPP/PhotoDel/SwipePhotoView.swift:144-146 | shown iff abs(w)>50, pointing left iff w<0 |
| SwipeView.IndicatorAnnouncesDecision | IOSAPP/PhotoDel/SwipePhotoView.swift:132-146 | a drag that will delete already shows the left indicator, one that will keep the right one |
| SwipeView.FilteredPhotosSource | IOSAPP/PhotoDel/SwipePhotoView.swift:30-38 | a category wins over a time group, which wins over the whole library |
| SwipeView.CategoryOverridesTimeGroup | IOSAPP/PhotoDel/SwipePhotoView.swift:30-38 | with a category chosen, the time group has no effect |
| SwipeView.SwipeCard.constructor | IOSAPP/PhotoDel/SwipePhotoView.swift:17-18 | the card starts at rest |
| SwipeView.SwipeCard.OnDragChanged | IOSAPP/PhotoDel/SwipePhotoView.swift:133-136 | the card follows the finger and tilts by a tenth of the horizontal offset |
| SwipeView.SwipeCard.ResetCardPosition | IOSAPP/PhotoDel/SwipePhotoView.swift:315-318 | offset and tilt back to zero, no indicator |
| SwipeView.SwipeCard.HandleSwipeGesture | IOSAPP/PhotoDel/SwipePhotoView.swift:290-313 | issues the classified action, if any, and the card is at rest afterwards in every case |
| SwipeView.SwipeCard.FavoriteButtonTapped | IOSAPP/PhotoDel/SwipePhotoView.swift:237-244 | favourites the current photo and resets the card |
| SwipeView.SwipeCard.DeleteButtonTapped | IOSAPP/PhotoDel/SwipePhotoView.swift:249-256 | deletes the current photo and resets the card |
| SwipeView.SwipeCard.UndoButtonTapped | IOSAPP/PhotoDel/SwipePhotoView.swift:226-232 | undoes, leaving the card as it is |
| Home.HashFeed | IOSAPP/PhotoDel/HomeView.swift:28-40 | a case tag followed by one payload value |
| Home.EqualDestinationsHashAlike | IOSAPP/PhotoDel/HomeView.swift:15-40 | equal destinations feed the hasher identical values |
| Home.SameHashFeedMeansEqual | IOSAPP/PhotoDel/HomeView.swift:15-40 | the hasher is fed exactly what `==` compares: the same feed means equal destinations |
| Home.DestinationEqualityIsEquivalence | IOSAPP/PhotoDel/HomeView.swift:15-26 | `==` is reflexive, symmetric and transitive |
| Home.AlbumDestinationsById | IOSAPP/PhotoDel/HomeView.swift:15-26 | album destinations are equal iff their ids are; destinations of different cases never are |
| Home.GetPhotoCount | IOSAPP/PhotoDel/HomeView.swift:205-216 | the count field matching the category, which is the length of that category's list |
| Home.ProgressRatio | IOSAPP/PhotoDel/HomeView.swift:222-228 | 0 for an empty category; otherwise ratio × total = organised, and within [0,1] when organised ≤ total |
| Home.GetProgressFor | IOSAPP/PhotoDel/HomeView.swift:222-228 | the ratio of the organised count to the category's list length |
| Home.ProgressCanExceedOne | IOSAPP/PhotoDel/HomeView.swift:222-228 | the ratio is not capped at 1 |
| Home.CardProgressColor | IOSAPP/PhotoDel/HomeView.swift:238-244 | exactly one of five bands, at 0.9, 0.8, 0.6 and 0.4 |
| Home.CardColorsFollowTimeGroupBands | IOSAPP/PhotoDel/HomeView.swift:314-320 | the cards' bands are those of `TimeGroup.progressColor`, with cyan for teal |
| Home.TimelinePercent | IOSAPP/PhotoDel/HomeView.swift:362 | the printed percentage is 0 to 100 for progress in [0,1], the whole part of progress × 100, with the product taken exactly |
| AlbumsScreen.SearchIgnoresCase | IOSAPP/PhotoDel/AlbumsView.swift:148 | two search texts that differ only in letter case match the same album names |
| AlbumsScreen.SameFoldSameAlbums | IOSAPP/PhotoDel/AlbumsView.swift:143-150 | two search texts that differ only in letter case list the same albums in the same order |
| AlbumsScreen.FilteredAlbums | IOSAPP/PhotoDel/AlbumsView.swift:143-150 | the whole list for empty text; otherwise exactly the albums whose name contains the text, in order |
| AlbumsScreen.DeleteAlbumIndex | IOSAPP/PhotoDel/AlbumsView.swift:154-157 | no deletion iff no album has the id; otherwise the first index with that id |
| AlbumsScreen.ListedAlbumIsFound | IOSAPP/PhotoDel/AlbumsView.swift:154-157 | deleting an album taken from the list always finds an index |
| AlbumsScreen.RowDragAction | IOSAPP/PhotoDel/AlbumsView.swift:280-288 | edit iff w>100, delete iff w<−100, nothing iff abs(w)≤100 |
| AlbumsScreen.DecisiveDragRevealsButtons | IOSAPP/PhotoDel/AlbumsView.swift:201 | a drag long enough to act has revealed the row's buttons |
| AlbumsScreen.AlbumRow.constructor | IOSAPP/PhotoDel/AlbumsView.swift:166 | the row starts at rest |
| AlbumsScreen.AlbumRow.OnDragChanged | IOSAPP/PhotoDel/AlbumsView.swift:277-279 | the row follows the finger; the buttons show iff abs(w)>20 |
| AlbumsScreen.AlbumRow.OnDragEnded | IOSAPP/PhotoDel/AlbumsView.swift:280-291 | calls back as `RowDragAction` decides, and the offset is zero in every case |
| AlbumsScreen.DoneTapped | IOSAPP/PhotoDel/AlbumsView.swift:430-441 | an album is requested iff the name is non-empty, with exactly the chosen name, icon and colour |
| AlbumsScreen.PreviewTitle | IOSAPP/PhotoDel/AlbumsView.swift:337 | the typed name, or a non-empty placeholder while there is none |
| RealPhoto.BadgeIsScreenshot | IOSAPP/PhotoDel/RealPhotoView.swift:104-121 | with the subtype available, exactly the store flag; without it, the strict 10-pixel screen test |
| RealPhoto.BadgeWithinClassifier | IOSAPP/PhotoDel/RealPhotoView.swift:104-121 | a badged asset is always a screenshot to the manager, and without the subtype the two rules agree |
| RealPhoto.ScreenSizedImageNotBadged | IOSAPP/PhotoDel/RealPhotoView.swift:104-107 | an unflagged screen-sized image is a screenshot to the manager but not badged |
| RealPhoto.Overlay | IOSAPP/PhotoDel/RealPhotoView.swift:63-102 | play badge iff video, heart iff favourite, screenshot badge iff the badge rule holds |
| RealPhoto.VideoBadgesExclusive | IOSAPP/PhotoDel/RealPhotoView.swift:66-99 | with the subtype available, a video never also carries the screenshot badge |
| RealPhoto.RealPhotoViewState.constructor | IOSAPP/PhotoDel/RealPhotoView.swift:9-10 | no image and loading, so the spinner shows |
| RealPhoto.RealPhotoViewState.CurrentDisplay | IOSAPP/PhotoDel/RealPhotoView.swift:13-51 | the image iff there is one; the spinner iff there is none and loading is on |
| RealPhoto.RealPhotoViewState.LoadImage | IOSAPP/PhotoDel/RealPhotoView.swift:123-131 | image cleared and loading on before the request, which asks for the current asset at the tile's size |
| RealPhoto.RealPhotoViewState.ImageDelivered | IOSAPP/PhotoDel/RealPhotoView.swift:127-130 | stores what arrived, possibly nothing, and turns loading off |
| RealPhoto.RealPhotoViewState.OnAssetChange | IOSAPP/PhotoDel/RealPhotoView.swift:57-59 | the view holds the new asset; one with a different identifier is loaded afresh, one with the same identifier causes no reload |
| RealPhoto.ItemWidth | IOSAPP/PhotoDel/RealPhotoView.swift:155-159 | three items, two gaps of 2 and 32 of padding fill the screen width exactly |

## Left out

- Photo store calls are not modelled: fetches, `performChanges`, `requestImage`, `requestAuthorization`, `createAlbum` and `addPhotosToAlbum`. Their results and outcomes are parameters. `deletePhotos` and `addToFavorites` are reduced to the request they issue and the outcome they report. `PhotoLibraryManager.toggleFavorite` and `DataManager.toggleFavoriteStatus` are not modelled: each is a single store request, and no modelled state depends on its outcome, which is only passed on or printed. `loadThumbnail` and `loadFullImage` are not modelled.
- Threading is not modelled: `DispatchQueue` hops, `DispatchGroup`, `asyncAfter` and `[weak self]`. Each loading and commit path is a sequence of steps in the order the code posts them. The two commit completions arrive in an order given as a parameter.
- `setupPhotoLibraryManager` only chains modelled operations. `requestPhotoLibraryAccess` is modelled as its two parts, `RequestPhotoLibraryAccess` and `ReloadAfterAccessRequest`. How these interleave depends on queue timing: the time groups may be computed before the photos are published.
- Calendar semantics are parameters of `Calendar`: today, same week, same month, adding months, year and month.
- The screen's size and scale are parameters of `Device`, and so is `#available(iOS 9.0, *)`.
- Rendering is not modelled: `String(format:)` strings, layout, animations, colours as visuals, icons, and the raw values of enums.
- Library.PhotoLibraryManager.TotalPhotosCount: this and the other three count properties have no contract of their own; their lengths are stated through `Home.GetPhotoCount` and `Triage.DataManager.UpdateStats`.
- `DataManager.getTotalPhotosCount`, `getVideosCount`, `getScreenshotsCount` and `getFavoritesCount` only forward the manager's counts. `getSystemAlbums` and `getUserAlbums` return a field. `clearCandidates` calls `cancelAllOperations`. `performBatchOperations` calls `executeBatchOperations` and prints. None has a member of its own. `isInDeleteCandidates` and `isInFavoriteCandidates` (DataManager.swift:99-105) are plain membership tests of the asset's identifier in the staging set. They are modelled as `IsInDeleteCandidates` and `IsInFavoriteCandidates` without a contract of their own. Their meaning is stated through the staging methods: `Add…` makes the test true, and `RemoveFromDeleteCandidates` makes it false.
- `getCurrentPhoto`, `deleteCurrentPhoto`, `keepCurrentPhoto`, `favoriteCurrentPhoto`, `skipCurrentPhoto`, `getPhotos(for:)`, `photos`, `albums`, `addAlbum` and `deleteAlbum(at:)` are called by the views but defined in no file here. The model returns the action, index or request instead.
- `AlbumInfo` and `TimeGroupInfo` are defined in no file here. Their fields are the ones the code reads. An album's `id` is taken to be its collection's identifier.
- HomeView's `getPhotoCount(for: TimeGroup)` and its navigation destinations pass values whose types disagree with their callees'. They are not modelled.
- AlbumsScreen.SearchIgnoresCase: `localizedCaseInsensitiveContains` is modelled as ASCII case folding. Locale-aware Unicode folding is left out.
- Library.TotalSizeOfPhotos: the `Int64` product is unbounded here; overflow needs more than 3 × 10^12 assets.
- Home.TimelinePercent: the product `progress * 100` is exact here, but in Swift it is a `Double` product. For progress 0.29, Swift computes 28.999999999999996 and prints 28, where the model gives 29. The bounds stated (0 to 100 for progress in [0,1], and within one below progress × 100) are exact-real bounds. Home.ProgressRatio is likewise an exact quotient.
- Models.TruncateToInt: `Int(Double)` traps on NaN, infinities and out-of-range values. The model takes every real.
- `Date()` defaults are passed as arguments.
- RealPhoto.RealPhotoViewState.ImageDelivered: a completion is applied whichever request it answers. A late completion for a previous asset overwrites the newer image, and this ordering is not modelled.
- `FullScreenPhotoView` is not modelled: it loads the full image with the same completion rule. `EditAlbumView` is not modelled: it dismisses at once.
- The following files are not part of this model, being layout only: SettingsView.swift, MainTabView.swift, DeleteConfirmView.swift, SplashView.swift, PhotoPlaceholderView.swift. generate_app_icon.py is not part of this model either.

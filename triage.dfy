/** DataManager.swift: the triage session. Two staging sets hold the assets the
    user marked for deletion and for favouriting, a cursor walks the library,
    the statistics follow the sets, and a batch commit sends the staged
    intents to the photo store. */
module Triage {
  import opened Collections
  import opened Platform
  import opened Models
  import opened Library

  /** The relative windows `getPhotosForTimeGroup` is asked for. */
  datatype DateWindow = TodayWindow | ThisWeekWindow | ThisMonthWindow | LastMonthWindow | OlderWindow

  /** The rule `getPhotosForTimeGroup` applies to one asset. */
  predicate InWindow(a: Asset, w: DateWindow, cal: Calendar)
  {
    match a.creationDate
    case None => false
    case Some(created) =>
      match w
      case TodayWindow => cal.isDateInToday(created)
      case ThisWeekWindow => cal.sameWeek(created, cal.now) && !cal.isDateInToday(created)
      case ThisMonthWindow => cal.sameMonth(created, cal.now) && !cal.sameWeek(created, cal.now)
      case LastMonthWindow =>
        var lastMonth := match cal.addingMonths(-1, cal.now) case Some(m) => m case None => cal.now;
        cal.sameMonth(created, lastMonth)
      case OlderWindow =>
        var twoMonthsAgo := match cal.addingMonths(-2, cal.now) case Some(m) => m case None => cal.now;
        created < twoMonthsAgo
  }

  /** `getPhotosForTimeGroup` over a given photo list. */
  function PhotosInWindow(photos: seq<Asset>, w: DateWindow, cal: Calendar): (r: seq<Asset>)
    ensures forall a :: a in r <==> a in photos && InWindow(a, w, cal)
    ensures IsSubsequence(r, photos)
  {
    Filter(photos, a => InWindow(a, w, cal))
  }

  /** An asset without a creation date belongs to no window. */
  lemma UndatedInNoWindow(photos: seq<Asset>, w: DateWindow, cal: Calendar)
    ensures forall a :: a in PhotosInWindow(photos, w, cal) ==> a.creationDate.Some?
  {
  }

  /** Today's photos and this week's photos are disjoint, and so are this
      week's and this month's. */
  lemma AdjacentWindowsDisjoint(photos: seq<Asset>, cal: Calendar)
    ensures forall a :: a in PhotosInWindow(photos, TodayWindow, cal) ==> a !in PhotosInWindow(photos, ThisWeekWindow, cal)
    ensures forall a :: a in PhotosInWindow(photos, ThisWeekWindow, cal) ==> a !in PhotosInWindow(photos, ThisMonthWindow, cal)
  {
  }

  /** A day-numbered calendar (30-day months, 7-day weeks) at day `today`. */
  function DayCalendar(today: int): Calendar
  {
    Calendar(
      today,
      d => d == today,
      (d, e) => d / 7 == e / 7,
      (d, e) => d / 30 == e / 30,
      (k, d) => Some(d + 30 * k),
      d => 2025,
      d => d / 30 + 1)
  }

  /** The windows leave dated assets out: on `DayCalendar(75)`, day 20 is after
      "two months ago" (day 15) but not in last month (days 30 to 59). */
  lemma WindowsLeaveAGap()
    ensures var a := Asset(1, Image, 1, 1, false, false, Some(20));
      forall w :: !InWindow(a, w, DayCalendar(75))
  {
    var a := Asset(1, Image, 1, 1, false, false, Some(20));
    forall w ensures !InWindow(a, w, DayCalendar(75)) {
      assert 20 / 30 == 0 && 75 / 30 == 2 && 45 / 30 == 1 && 20 / 7 == 2 && 75 / 7 == 10;
    }
  }

  /** The windows are not exclusive: when this week began last month, an
      asset from that part of the week is listed both under this week and
      under last month. On `DayCalendar(62)`, day 58 is in week 8 (days 56
      to 62) and in month 1 (days 30 to 59), which is last month. */
  lemma ThisWeekOverlapsLastMonth()
    ensures var a := Asset(1, Image, 1, 1, false, false, Some(58));
      && a in PhotosInWindow([a], ThisWeekWindow, DayCalendar(62))
      && a in PhotosInWindow([a], LastMonthWindow, DayCalendar(62))
  {
    var a := Asset(1, Image, 1, 1, false, false, Some(58));
    assert 58 / 7 == 8 && 62 / 7 == 8 && 58 / 30 == 1 && 32 / 30 == 1 && 62 / 30 == 2;
    assert InWindow(a, ThisWeekWindow, DayCalendar(62)) && InWindow(a, LastMonthWindow, DayCalendar(62));
  }

  /** `AssetCollection.subtype`, as far as `getAlbumType` distinguishes it. */
  datatype CollectionSubtype =
    | SmartAlbumUserLibrary | SmartAlbumRecentlyAdded | SmartAlbumFavorites
    | SmartAlbumScreenshots | SmartAlbumVideos | OtherSubtype(rawValue: int)

  datatype AlbumType = AllAlbum | Recents | FavoritesAlbum | ScreenshotsAlbum | VideosAlbum | UserCreated

  /** `getAlbumType`: each of the five smart albums `loadAlbums` asks for has
      its own type; every other subtype counts as user-created. */
  function GetAlbumType(subtype: CollectionSubtype): (t: AlbumType)
    ensures t == UserCreated <==> subtype.OtherSubtype?
  {
    match subtype
    case SmartAlbumUserLibrary => AllAlbum
    case SmartAlbumRecentlyAdded => Recents
    case SmartAlbumFavorites => FavoritesAlbum
    case SmartAlbumScreenshots => ScreenshotsAlbum
    case SmartAlbumVideos => VideosAlbum
    case OtherSubtype(_) => UserCreated
  }

  /** No two smart-album subtypes share a type. */
  lemma SmartAlbumTypesDistinct(s1: CollectionSubtype, s2: CollectionSubtype)
    requires !s1.OtherSubtype? && !s2.OtherSubtype?
    ensures GetAlbumType(s1) == GetAlbumType(s2) <==> s1 == s2
  {
  }

  type CollectionId = int

  /** `AlbumInfo` is not part of this model; its fields are those the core reads. */
  datatype AlbumInfo = AlbumInfo(
    id: CollectionId,
    collection: Option<CollectionId>,
    albumType: AlbumType,
    photosCount: int,
    thumbnail: Option<AssetId>)

  /** A collection as the store returns it: its identifier and its assets in
      fetch order. */
  datatype FetchedCollection = FetchedCollection(id: CollectionId, assets: seq<Asset>)

  /** The `AlbumInfo` that `loadAlbums` builds for one fetched collection:
      its asset count and its first asset as the thumbnail. */
  function AlbumInfoFor(c: FetchedCollection, t: AlbumType): (info: AlbumInfo)
    ensures info.collection == Some(c.id) && info.albumType == t && info.photosCount == |c.assets|
    ensures info.thumbnail.None? <==> c.assets == []
    ensures info.thumbnail.Some? ==> info.thumbnail.value == c.assets[0].id
  {
    AlbumInfo(c.id, Some(c.id), t, |c.assets|, if c.assets == [] then None else Some(c.assets[0].id))
  }

  /** The smart-album subtypes `loadAlbums` asks for, in its order. */
  const SmartAlbumSubtypes: seq<CollectionSubtype> :=
    [SmartAlbumUserLibrary, SmartAlbumRecentlyAdded, SmartAlbumFavorites, SmartAlbumScreenshots, SmartAlbumVideos]

  /** A collection `loadAlbums` lists as a system album: it has assets. */
  predicate HasAssets(c: FetchedCollection)
  {
    c.assets != []
  }

  /** The albums `loadAlbums` keeps from the collections of one smart
      subtype. */
  function NonEmptyAlbums(cs: seq<FetchedCollection>, t: AlbumType): (r: seq<AlbumInfo>)
    ensures |r| <= |cs|
    ensures forall info :: info in r ==> info.albumType == t && info.photosCount > 0 && info.thumbnail.Some?
  {
    if cs == [] then []
    else
      var last := cs[|cs| - 1];
      NonEmptyAlbums(cs[..|cs| - 1], t) + (if last.assets != [] then [AlbumInfoFor(last, t)] else [])
  }

  /** `NonEmptyAlbums` lists the non-empty collections, each once and in
      the order the store enumerates them, and nothing else. */
  lemma {:induction false} NonEmptyAlbumsInOrder(cs: seq<FetchedCollection>, t: AlbumType)
    ensures |NonEmptyAlbums(cs, t)| == |Filter(cs, HasAssets)|
    ensures forall i :: 0 <= i < |NonEmptyAlbums(cs, t)| ==>
              NonEmptyAlbums(cs, t)[i] == AlbumInfoFor(Filter(cs, HasAssets)[i], t)
    decreases |cs|
  {
    if cs != [] {
      var front, last := cs[..|cs| - 1], cs[|cs| - 1];
      assert cs == front + [last];
      NonEmptyAlbumsInOrder(front, t);
      FilterAppend(front, [last], HasAssets);
      var kept, albums := Filter(front, HasAssets), NonEmptyAlbums(front, t);
      if HasAssets(last) {
        assert Filter(cs, HasAssets) == kept + [last];
        assert NonEmptyAlbums(cs, t) == albums + [AlbumInfoFor(last, t)];
      } else {
        assert Filter(cs, HasAssets) == kept;
        assert NonEmptyAlbums(cs, t) == albums;
      }
    }
  }

  /** Every non-empty collection has its album in `NonEmptyAlbums`, and every
      album there comes from a non-empty collection. */
  lemma {:induction false} NonEmptyAlbumsExactly(cs: seq<FetchedCollection>, t: AlbumType)
    ensures forall c :: c in cs && c.assets != [] ==> AlbumInfoFor(c, t) in NonEmptyAlbums(cs, t)
    ensures forall info :: info in NonEmptyAlbums(cs, t) ==>
              exists c :: c in cs && c.assets != [] && info == AlbumInfoFor(c, t)
    decreases |cs|
  {
    if cs != [] {
      var front, last := cs[..|cs| - 1], cs[|cs| - 1];
      assert cs == front + [last];
      NonEmptyAlbumsExactly(front, t);
    }
  }

  /** The system albums `loadAlbums` collects over a list of smart subtypes,
      given what the store returns for each subtype. */
  function SmartAlbums(subtypes: seq<CollectionSubtype>, fetch: CollectionSubtype -> seq<FetchedCollection>): (r: seq<AlbumInfo>)
    ensures forall info :: info in r ==> info.photosCount > 0 && info.thumbnail.Some?
    ensures (forall st :: st in subtypes ==> !st.OtherSubtype?) ==>
              forall info :: info in r ==> info.albumType != UserCreated
  {
    if subtypes == [] then []
    else
      var last := subtypes[|subtypes| - 1];
      SmartAlbums(subtypes[..|subtypes| - 1], fetch) + NonEmptyAlbums(fetch(last), GetAlbumType(last))
  }

  /** `SmartAlbums` holds exactly the non-empty collections of the requested
      subtypes, each typed by the subtype it was fetched under. */
  lemma {:induction false} SmartAlbumsAreTheNonEmptyCollections(
    subtypes: seq<CollectionSubtype>, fetch: CollectionSubtype -> seq<FetchedCollection>)
    ensures forall st, c :: st in subtypes && c in fetch(st) && c.assets != [] ==>
              AlbumInfoFor(c, GetAlbumType(st)) in SmartAlbums(subtypes, fetch)
    ensures forall info :: info in SmartAlbums(subtypes, fetch) ==>
              exists st, c :: st in subtypes && c in fetch(st) && c.assets != [] && info == AlbumInfoFor(c, GetAlbumType(st))
    decreases |subtypes|
  {
    if subtypes != [] {
      var front, last := subtypes[..|subtypes| - 1], subtypes[|subtypes| - 1];
      assert subtypes == front + [last];
      SmartAlbumsAreTheNonEmptyCollections(front, fetch);
      NonEmptyAlbumsExactly(fetch(last), GetAlbumType(last));
    }
  }

  /** The user albums `loadAlbums` collects: one per collection, empty ones
      included, all user-created. */
  function UserAlbums(cs: seq<FetchedCollection>): (r: seq<AlbumInfo>)
    ensures |r| == |cs|
    ensures forall i :: 0 <= i < |r| ==> r[i] == AlbumInfoFor(cs[i], UserCreated)
  {
    if cs == [] then [] else UserAlbums(cs[..|cs| - 1]) + [AlbumInfoFor(cs[|cs| - 1], UserCreated)]
  }

  /** The inner loop of `loadAlbums` over the collections of one smart
      subtype. */
  method CollectNonEmptyAlbums(collections: seq<FetchedCollection>, t: AlbumType) returns (found: seq<AlbumInfo>)
    ensures found == NonEmptyAlbums(collections, t)
  {
    found := [];
    var j := 0;
    while j < |collections|
      invariant 0 <= j <= |collections|
      invariant found == NonEmptyAlbums(collections[..j], t)
    {
      if collections[j].assets != [] {
        found := found + [AlbumInfoFor(collections[j], t)];
      }
      assert collections[..j + 1][..j] == collections[..j];
      j := j + 1;
    }
    assert collections[..j] == collections;
  }

  /** The outer loop of `loadAlbums` over the smart subtypes. */
  method CollectSmartAlbums(smartFetch: CollectionSubtype -> seq<FetchedCollection>) returns (system: seq<AlbumInfo>)
    ensures system == SmartAlbums(SmartAlbumSubtypes, smartFetch)
  {
    system := [];
    var k := 0;
    while k < |SmartAlbumSubtypes|
      invariant 0 <= k <= |SmartAlbumSubtypes|
      invariant system == SmartAlbums(SmartAlbumSubtypes[..k], smartFetch)
    {
      var subtype := SmartAlbumSubtypes[k];
      var found := CollectNonEmptyAlbums(smartFetch(subtype), GetAlbumType(subtype));
      assert SmartAlbumSubtypes[..k + 1][..k] == SmartAlbumSubtypes[..k];
      system := system + found;
      k := k + 1;
    }
    assert SmartAlbumSubtypes[..k] == SmartAlbumSubtypes;
  }

  /** The loop of `loadAlbums` over the user's collections. */
  method CollectUserAlbums(userCollections: seq<FetchedCollection>) returns (user: seq<AlbumInfo>)
    ensures user == UserAlbums(userCollections)
  {
    user := [];
    var i := 0;
    while i < |userCollections|
      invariant 0 <= i <= |userCollections|
      invariant user == UserAlbums(userCollections[..i])
    {
      assert userCollections[..i + 1][..i] == userCollections[..i];
      user := user + [AlbumInfoFor(userCollections[i], UserCreated)];
      i := i + 1;
    }
    assert userCollections[..i] == userCollections;
  }

  /** One entry of the time-group summary `loadTimeGroups` publishes. */
  datatype TimeGroupInfo = TimeGroupInfo(window: DateWindow, photosCount: nat, progress: real)

  /** The summaries `loadTimeGroups` builds over `photos`: one per window, in
      the order today, this week, this month, last month, older, each
      counting that window's photos and carrying its fixed progress. */
  function TimeGroups(photos: seq<Asset>, cal: Calendar): (r: seq<TimeGroupInfo>)
    ensures |r| == 5
    ensures [r[0].window, r[1].window, r[2].window, r[3].window, r[4].window]
      == [TodayWindow, ThisWeekWindow, ThisMonthWindow, LastMonthWindow, OlderWindow]
    ensures forall g :: g in r ==> g.photosCount == |PhotosInWindow(photos, g.window, cal)| <= |photos|
  {
    [TimeGroupInfo(TodayWindow, |PhotosInWindow(photos, TodayWindow, cal)|, 0.2),
     TimeGroupInfo(ThisWeekWindow, |PhotosInWindow(photos, ThisWeekWindow, cal)|, 0.1),
     TimeGroupInfo(ThisMonthWindow, |PhotosInWindow(photos, ThisMonthWindow, cal)|, 0.15),
     TimeGroupInfo(LastMonthWindow, |PhotosInWindow(photos, LastMonthWindow, cal)|, 0.05),
     TimeGroupInfo(OlderWindow, |PhotosInWindow(photos, OlderWindow, cal)|, 0.0)]
  }

  /** The two requests a commit may issue: which identifiers go in each. */
  datatype PendingBatch = PendingBatch(deletes: Option<set<AssetId>>, favorites: Option<set<AssetId>>)

  /** What the photo store reports for one request. */
  datatype StoreError = StoreError(code: int)
  datatype RequestOutcome = RequestOutcome(success: bool, error: Option<StoreError>)

  /** `hasError` and `lastError` in `executeBatchOperations`. */
  datatype BatchFlags = BatchFlags(hasError: bool, lastError: Option<StoreError>)

  /** A request's completion handler: a failure sets the error flag and
      records the store's error, which may be absent. */
  function OnRequestCompleted(flags: BatchFlags, outcome: RequestOutcome): (f: BatchFlags)
    ensures f.hasError <==> flags.hasError || !outcome.success
    ensures f.lastError == if outcome.success then flags.lastError else outcome.error
  {
    if !outcome.success then BatchFlags(true, outcome.error) else flags
  }

  /** The batch failed: some request that was issued reported failure. */
  predicate BatchFailed(batch: PendingBatch, deleteOutcome: RequestOutcome, favoriteOutcome: RequestOutcome)
  {
    DeleteFailed(batch, deleteOutcome) || FavoriteFailed(batch, favoriteOutcome)
  }

  /** The delete request was issued and reported failure. */
  predicate DeleteFailed(batch: PendingBatch, outcome: RequestOutcome)
  {
    batch.deletes.Some? && !outcome.success
  }

  /** The favourite request was issued and reported failure. */
  predicate FavoriteFailed(batch: PendingBatch, outcome: RequestOutcome)
  {
    batch.favorites.Some? && !outcome.success
  }

  class DataManager {
    const library: PhotoLibraryManager
    var organizeStats: OrganizeStats
    var currentRealPhotoIndex: int
    var deleteCandidates: set<AssetId>
    var favoriteCandidates: set<AssetId>
    var timeGroups: seq<TimeGroupInfo>
    var systemAlbums: seq<AlbumInfo>
    var userAlbums: seq<AlbumInfo>
    var authorizationRequested: bool

    /** The statistics describe the staging sets: one count per set and 3 MB
        saved per asset staged for deletion. */
    predicate StatsMatchCandidates()
      reads this
    {
      && organizeStats.deletedPhotos == |deleteCandidates|
      && organizeStats.favoritedPhotos == |favoriteCandidates|
      && organizeStats.spaceSaved == (|deleteCandidates| as real) * 3.0
    }

    ghost predicate Valid()
      reads this
    {
      0 <= currentRealPhotoIndex && StatsMatchCandidates()
    }

    constructor ()
      ensures Valid() && fresh(library)
      ensures library.authorizationStatus == NotDetermined && library.allPhotos == []
      ensures organizeStats == InitialStats && currentRealPhotoIndex == 0
      ensures deleteCandidates == {} && favoriteCandidates == {}
      ensures timeGroups == [] && systemAlbums == [] && userAlbums == []
      ensures !authorizationRequested
    {
      library := new PhotoLibraryManager();
      organizeStats := InitialStats;
      currentRealPhotoIndex := 0;
      deleteCandidates, favoriteCandidates := {}, {};
      timeGroups, systemAlbums, userAlbums := [], [], [];
      authorizationRequested := false;
    }

    /** `getCurrentRealPhoto`: the photo under the cursor, absent exactly when
        the cursor is past the end of the library. */
    function CurrentRealPhoto(): (r: Option<Asset>)
      requires 0 <= currentRealPhotoIndex
      reads this, library
      ensures r.None? <==> currentRealPhotoIndex >= |library.allPhotos|
      ensures r.Some? ==> r.value == library.allPhotos[currentRealPhotoIndex] && r.value in library.allPhotos
    {
      if currentRealPhotoIndex < |library.allPhotos| then Some(library.allPhotos[currentRealPhotoIndex]) else None
    }

    /** `moveToNextRealPhoto`: one step forward unless on the last photo. */
    method MoveToNextRealPhoto()
      modifies this`currentRealPhotoIndex
      ensures currentRealPhotoIndex ==
        if old(currentRealPhotoIndex) < |library.allPhotos| - 1 then old(currentRealPhotoIndex) + 1
        else old(currentRealPhotoIndex)
      ensures old(currentRealPhotoIndex) <= currentRealPhotoIndex
    {
      if currentRealPhotoIndex < |library.allPhotos| - 1 {
        currentRealPhotoIndex := currentRealPhotoIndex + 1;
      }
    }

    /** `moveToPreviousRealPhoto`: one step back unless at the start, so the
        cursor never becomes negative. */
    method MoveToPreviousRealPhoto()
      modifies this`currentRealPhotoIndex
      ensures currentRealPhotoIndex ==
        if old(currentRealPhotoIndex) > 0 then old(currentRealPhotoIndex) - 1 else old(currentRealPhotoIndex)
      ensures old(currentRealPhotoIndex) >= 0 ==> currentRealPhotoIndex >= 0
    {
      if currentRealPhotoIndex > 0 {
        currentRealPhotoIndex := currentRealPhotoIndex - 1;
      }
    }

    /** The statistics `updateStats` derives from `stats`: the counts follow
        the staging sets and the library as they stand now; kept photos and
        time spent are carried over. */
    function Recounted(stats: OrganizeStats): OrganizeStats
      reads this, library
    {
      stats.(
        deletedPhotos := |deleteCandidates|,
        favoritedPhotos := |favoriteCandidates|,
        totalPhotos := |library.allPhotos|,
        spaceSaved := (|deleteCandidates| as real) * 3.0)
    }

    /** `updateStats`: recounts the sets and the library; kept photos and time
        spent are left as they are. */
    method UpdateStats()
      modifies this`organizeStats
      ensures StatsMatchCandidates()
      ensures organizeStats == Recounted(old(organizeStats))
    {
      organizeStats := organizeStats.(
        deletedPhotos := |deleteCandidates|,
        favoritedPhotos := |favoriteCandidates|,
        totalPhotos := library.TotalPhotosCount());
      organizeStats := organizeStats.(spaceSaved := (|deleteCandidates| as real) * 3.0);
    }

    function IsInDeleteCandidates(a: Asset): bool reads this { a.id in deleteCandidates }
    function IsInFavoriteCandidates(a: Asset): bool reads this { a.id in favoriteCandidates }

    /** `addToDeleteCandidates`: set insertion, so adding twice is adding once. */
    method AddToDeleteCandidates(a: Asset)
      modifies this`deleteCandidates, this`organizeStats
      ensures deleteCandidates == old(deleteCandidates) + {a.id}
      ensures IsInDeleteCandidates(a) && StatsMatchCandidates()
      ensures organizeStats == Recounted(old(organizeStats))
    {
      deleteCandidates := deleteCandidates + {a.id};
      UpdateStats();
    }

    /** `removeFromDeleteCandidates`: set removal; removing an absent asset
        changes no set. */
    method RemoveFromDeleteCandidates(a: Asset)
      modifies this`deleteCandidates, this`organizeStats
      ensures deleteCandidates == old(deleteCandidates) - {a.id}
      ensures !IsInDeleteCandidates(a) && StatsMatchCandidates()
      ensures organizeStats == Recounted(old(organizeStats))
    {
      deleteCandidates := deleteCandidates - {a.id};
      UpdateStats();
    }

    /** `addToFavoriteCandidates`: set insertion into the favourites set. */
    method AddToFavoriteCandidates(a: Asset)
      modifies this`favoriteCandidates, this`organizeStats
      ensures favoriteCandidates == old(favoriteCandidates) + {a.id}
      ensures IsInFavoriteCandidates(a) && StatsMatchCandidates()
      ensures organizeStats == Recounted(old(organizeStats))
    {
      favoriteCandidates := favoriteCandidates + {a.id};
      UpdateStats();
    }

    /** `handleLeftSwipe`: flips the current photo's membership in the delete
        set and moves on; with no current photo nothing changes. */
    method HandleLeftSwipe()
      requires Valid()
      modifies this`deleteCandidates, this`organizeStats, this`currentRealPhotoIndex
      ensures Valid()
      ensures old(currentRealPhotoIndex) >= |library.allPhotos| ==> unchanged(this)
      ensures old(currentRealPhotoIndex) < |library.allPhotos| ==>
        var id := library.allPhotos[old(currentRealPhotoIndex)].id;
        && deleteCandidates == (if id in old(deleteCandidates) then old(deleteCandidates) - {id}
                                else old(deleteCandidates) + {id})
        && currentRealPhotoIndex ==
             (if old(currentRealPhotoIndex) < |library.allPhotos| - 1 then old(currentRealPhotoIndex) + 1
              else old(currentRealPhotoIndex))
        && organizeStats == Recounted(old(organizeStats))
      ensures favoriteCandidates == old(favoriteCandidates)
    {
      var current := CurrentRealPhoto();
      if current.None? {
        return;
      }
      if IsInDeleteCandidates(current.value) {
        RemoveFromDeleteCandidates(current.value);
      } else {
        AddToDeleteCandidates(current.value);
      }
      MoveToNextRealPhoto();
    }

    /** `handleRightSwipe`: skips the photo. */
    method HandleRightSwipe()
      requires Valid()
      modifies this`currentRealPhotoIndex
      ensures Valid()
      ensures currentRealPhotoIndex ==
        if old(currentRealPhotoIndex) < |library.allPhotos| - 1 then old(currentRealPhotoIndex) + 1
        else old(currentRealPhotoIndex)
    {
      MoveToNextRealPhoto();
    }

    /** `handleUpSwipe`: stages the current photo as a favourite (never
        unstaging it) and moves on; with no current photo nothing changes. */
    method HandleUpSwipe()
      requires Valid()
      modifies this`favoriteCandidates, this`organizeStats, this`currentRealPhotoIndex
      ensures Valid()
      ensures old(currentRealPhotoIndex) >= |library.allPhotos| ==> unchanged(this)
      ensures old(currentRealPhotoIndex) < |library.allPhotos| ==>
        && favoriteCandidates == old(favoriteCandidates) + {library.allPhotos[old(currentRealPhotoIndex)].id}
        && currentRealPhotoIndex ==
             (if old(currentRealPhotoIndex) < |library.allPhotos| - 1 then old(currentRealPhotoIndex) + 1
              else old(currentRealPhotoIndex))
        && organizeStats == Recounted(old(organizeStats))
      ensures old(favoriteCandidates) <= favoriteCandidates
      ensures deleteCandidates == old(deleteCandidates)
    {
      var current := CurrentRealPhoto();
      if current.None? {
        return;
      }
      AddToFavoriteCandidates(current.value);
      MoveToNextRealPhoto();
    }

    /** `handleDownSwipe`: skips the photo. */
    method HandleDownSwipe()
      requires Valid()
      modifies this`currentRealPhotoIndex
      ensures Valid()
      ensures currentRealPhotoIndex ==
        if old(currentRealPhotoIndex) < |library.allPhotos| - 1 then old(currentRealPhotoIndex) + 1
        else old(currentRealPhotoIndex)
    {
      MoveToNextRealPhoto();
    }

    /** `undoLastAction`: only steps back; no staging is reverted. */
    method UndoLastAction()
      requires Valid()
      modifies this`currentRealPhotoIndex
      ensures Valid()
      ensures currentRealPhotoIndex ==
        if old(currentRealPhotoIndex) > 0 then old(currentRealPhotoIndex) - 1 else old(currentRealPhotoIndex)
    {
      MoveToPreviousRealPhoto();
    }

    /** The request phase of `executeBatchOperations`: one delete request for
        a non-empty delete set and one favourite request for a non-empty
        favourite set, each carrying the whole set. Nothing changes here. */
    method ExecuteBatchOperations() returns (batch: PendingBatch)
      ensures batch.deletes.Some? <==> deleteCandidates != {}
      ensures batch.deletes.Some? ==> batch.deletes.value == deleteCandidates
      ensures batch.favorites.Some? <==> favoriteCandidates != {}
      ensures batch.favorites.Some? ==> batch.favorites.value == favoriteCandidates
    {
      var deletes: Option<set<AssetId>> := None;
      if deleteCandidates != {} {
        deletes := Some(deleteCandidates);
      }
      var favorites: Option<set<AssetId>> := None;
      if favoriteCandidates != {} {
        favorites := Some(favoriteCandidates);
      }
      batch := PendingBatch(deletes, favorites);
    }

    /** The dispatch group's `notify` block of `executeBatchOperations`: the
        completion handlers of the issued requests run, in the order the
        store finishes them, then on success both sets are emptied as they
        stand now, entries staged while the requests ran included. On failure
        nothing changes. Returns what the caller's completion receives. */
    method BatchOperationsFinished(batch: PendingBatch, deleteOutcome: RequestOutcome,
                                   favoriteOutcome: RequestOutcome, favoritesFinishFirst: bool)
      returns (success: bool, lastError: Option<StoreError>)
      requires Valid()
      modifies this`deleteCandidates, this`favoriteCandidates, this`organizeStats
      ensures Valid()
      ensures success <==> !BatchFailed(batch, deleteOutcome, favoriteOutcome)
      ensures success ==> deleteCandidates == {} && favoriteCandidates == {} && lastError == None
      ensures success ==> organizeStats == Recounted(old(organizeStats))
      ensures !success ==> unchanged(this)
      ensures DeleteFailed(batch, deleteOutcome) && !FavoriteFailed(batch, favoriteOutcome) ==>
                lastError == deleteOutcome.error
      ensures FavoriteFailed(batch, favoriteOutcome) && !DeleteFailed(batch, deleteOutcome) ==>
                lastError == favoriteOutcome.error
      ensures DeleteFailed(batch, deleteOutcome) && FavoriteFailed(batch, favoriteOutcome) ==>
                lastError == if favoritesFinishFirst then deleteOutcome.error else favoriteOutcome.error
    {
      var flags := BatchFlags(false, None);
      if favoritesFinishFirst {
        if batch.favorites.Some? { flags := OnRequestCompleted(flags, favoriteOutcome); }
        if batch.deletes.Some? { flags := OnRequestCompleted(flags, deleteOutcome); }
      } else {
        if batch.deletes.Some? { flags := OnRequestCompleted(flags, deleteOutcome); }
        if batch.favorites.Some? { flags := OnRequestCompleted(flags, favoriteOutcome); }
      }
      if !flags.hasError {
        deleteCandidates := {};
        favoriteCandidates := {};
        UpdateStats();
      }
      success, lastError := !flags.hasError, flags.lastError;
    }

    /** `cancelAllOperations`: empties both sets and recounts. */
    method CancelAllOperations()
      requires Valid()
      modifies this`deleteCandidates, this`favoriteCandidates, this`organizeStats
      ensures Valid()
      ensures deleteCandidates == {} && favoriteCandidates == {}
      ensures organizeStats == Recounted(old(organizeStats))
      ensures organizeStats.deletedPhotos == 0 && organizeStats.favoritedPhotos == 0
      ensures organizeStats.spaceSaved == 0.0
    {
      deleteCandidates := {};
      favoriteCandidates := {};
      UpdateStats();
    }

    /** `getOrganizedCount`: every staged asset counts as organised, whatever
        the category asked about; it agrees with the statistics. */
    function GetOrganizedCount(category: PhotoCategory): (n: int)
      reads this
      ensures n == |deleteCandidates| + |favoriteCandidates|
      ensures StatsMatchCandidates() ==> n == organizeStats.deletedPhotos + organizeStats.favoritedPhotos
    {
      |deleteCandidates| + |favoriteCandidates|
    }

    /** `getRealPhotos(for:)`: the library list that backs each category. */
    function RealPhotos(category: PhotoCategory): (r: seq<Asset>)
      reads this, library
      ensures category == All ==> r == library.allPhotos
      ensures category == Videos ==> r == library.videos
      ensures category == Screenshots ==> r == library.screenshots
      ensures category == Favorites ==> r == library.favorites
    {
      match category
      case All => library.allPhotos
      case Videos => library.videos
      case Screenshots => library.screenshots
      case Favorites => library.favorites
    }

    /** `getPhotosForTimeGroup`, against the library's current list. */
    function PhotosForTimeGroup(w: DateWindow, cal: Calendar): (r: seq<Asset>)
      reads this, library
      ensures IsSubsequence(r, library.allPhotos)
      ensures forall a :: a in r <==> a in library.allPhotos && InWindow(a, w, cal)
    {
      PhotosInWindow(library.allPhotos, w, cal)
    }

    /** `getAllAlbums`: the system albums, then the user's. */
    function GetAllAlbums(): (r: seq<AlbumInfo>)
      reads this
      ensures |r| == |systemAlbums| + |userAlbums|
      ensures r[..|systemAlbums|] == systemAlbums && r[|systemAlbums|..] == userAlbums
    {
      systemAlbums + userAlbums
    }

    /** `getPhotosForAlbum`: an album without a collection stands for one of
        the library's lists by its type (none for the other types); an album
        with a collection lists, in order, the assets the store returns for
        it, given here as `collectionAssets`. */
    method GetPhotosForAlbum(album: AlbumInfo, collectionAssets: seq<Asset>) returns (r: seq<Asset>)
      ensures album.collection.Some? ==> r == collectionAssets
      ensures album.collection.None? ==>
        r == match album.albumType
             case AllAlbum => library.allPhotos
             case FavoritesAlbum => library.favorites
             case ScreenshotsAlbum => library.screenshots
             case VideosAlbum => library.videos
             case _ => []
    {
      if album.collection.None? {
        match album.albumType {
          case AllAlbum => r := library.allPhotos;
          case FavoritesAlbum => r := library.favorites;
          case ScreenshotsAlbum => r := library.screenshots;
          case VideosAlbum => r := library.videos;
          case _ => r := [];
        }
      } else {
        r := EnumerateObjects(collectionAssets);
      }
    }

    /** `loadTimeGroups`: with access granted, one summary per window in the
        order today, this week, this month, last month, older, each counting
        `getPhotosForTimeGroup` and carrying its fixed progress; otherwise
        nothing changes. */
    method LoadTimeGroups(cal: Calendar)
      modifies this`timeGroups
      ensures library.authorizationStatus != Authorized ==> timeGroups == old(timeGroups)
      ensures library.authorizationStatus == Authorized ==>
        && |timeGroups| == 5
        && timeGroups[0] == TimeGroupInfo(TodayWindow, |PhotosForTimeGroup(TodayWindow, cal)|, 0.2)
        && timeGroups[1] == TimeGroupInfo(ThisWeekWindow, |PhotosForTimeGroup(ThisWeekWindow, cal)|, 0.1)
        && timeGroups[2] == TimeGroupInfo(ThisMonthWindow, |PhotosForTimeGroup(ThisMonthWindow, cal)|, 0.15)
        && timeGroups[3] == TimeGroupInfo(LastMonthWindow, |PhotosForTimeGroup(LastMonthWindow, cal)|, 0.05)
        && timeGroups[4] == TimeGroupInfo(OlderWindow, |PhotosForTimeGroup(OlderWindow, cal)|, 0.0)
        && timeGroups == TimeGroups(library.allPhotos, cal)
      ensures forall g :: g in timeGroups && library.authorizationStatus == Authorized ==>
        g.photosCount <= |library.allPhotos|
    {
      if library.authorizationStatus != Authorized {
        return;
      }
      var groups: seq<TimeGroupInfo> := [];
      groups := groups + [TimeGroupInfo(TodayWindow, |PhotosForTimeGroup(TodayWindow, cal)|, 0.2)];
      groups := groups + [TimeGroupInfo(ThisWeekWindow, |PhotosForTimeGroup(ThisWeekWindow, cal)|, 0.1)];
      groups := groups + [TimeGroupInfo(ThisMonthWindow, |PhotosForTimeGroup(ThisMonthWindow, cal)|, 0.15)];
      groups := groups + [TimeGroupInfo(LastMonthWindow, |PhotosForTimeGroup(LastMonthWindow, cal)|, 0.05)];
      groups := groups + [TimeGroupInfo(OlderWindow, |PhotosForTimeGroup(OlderWindow, cal)|, 0.0)];
      timeGroups := groups;
    }

    /** `loadAlbums`: with access granted, the non-empty collections of each
        smart subtype in turn become system albums and every user collection
        becomes a user album; otherwise nothing changes. `smartFetch` and
        `userCollections` stand for the store's answers. */
    method LoadAlbums(smartFetch: CollectionSubtype -> seq<FetchedCollection>, userCollections: seq<FetchedCollection>)
      modifies this`systemAlbums, this`userAlbums
      ensures library.authorizationStatus != Authorized ==>
        systemAlbums == old(systemAlbums) && userAlbums == old(userAlbums)
      ensures library.authorizationStatus == Authorized ==>
        systemAlbums == SmartAlbums(SmartAlbumSubtypes, smartFetch) && userAlbums == UserAlbums(userCollections)
    {
      if library.authorizationStatus != Authorized {
        return;
      }
      var system := CollectSmartAlbums(smartFetch);
      var user := CollectUserAlbums(userCollections);
      systemAlbums, userAlbums := system, user;
    }

    /** `requestPhotoLibraryAccess`, first part: it records that access was
        requested and asks the store. The store's answer arrives through
        `PhotoLibraryManager.AuthorizationResolved`. */
    method RequestPhotoLibraryAccess()
      modifies this`authorizationRequested
      ensures authorizationRequested
    {
      authorizationRequested := true;
    }

    /** `requestPhotoLibraryAccess`, second part: the block it schedules one
        second later reloads the time groups and the albums if access has
        been granted by then, and changes nothing otherwise. */
    method ReloadAfterAccessRequest(cal: Calendar, smartFetch: CollectionSubtype -> seq<FetchedCollection>,
                                    userCollections: seq<FetchedCollection>)
      modifies this`timeGroups, this`systemAlbums, this`userAlbums
      ensures library.authorizationStatus != Authorized ==>
        timeGroups == old(timeGroups) && systemAlbums == old(systemAlbums) && userAlbums == old(userAlbums)
      ensures library.authorizationStatus == Authorized ==>
        && timeGroups == TimeGroups(library.allPhotos, cal)
        && systemAlbums == SmartAlbums(SmartAlbumSubtypes, smartFetch)
        && userAlbums == UserAlbums(userCollections)
    {
      if library.authorizationStatus == Authorized {
        LoadTimeGroups(cal);
        LoadAlbums(smartFetch, userCollections);
      }
    }
  }
}

/** PhotoLibraryManager.swift: the in-memory index of the photo library, its
    classification into videos and screenshots, the loading progress, and the
    reaction to authorization and to library change notifications.
    The photo store is outside the model: what a fetch returns is an argument. */
module Library {
  import opened Collections
  import opened Platform

  /** `PHAsset.localIdentifier`. */
  type AssetId = int

  datatype MediaKind = UnknownKind | Image | Video | Audio

  /** The fields of `PHAsset` the app reads. */
  datatype Asset = Asset(
    id: AssetId,
    kind: MediaKind,
    pixelWidth: int,
    pixelHeight: int,
    screenshotSubtype: bool,        // mediaSubtypes.contains(.photoScreenshot)
    isFavorite: bool,
    creationDate: Option<Date>)

  datatype AuthorizationStatus = NotDetermined | Restricted | Denied | Authorized | Limited

  /** Both pixel dimensions lie strictly within 10 px of the screen's. */
  predicate MatchesScreenSize(a: Asset, d: Device)
  {
    AbsReal(a.pixelWidth as real - d.PixelWidth()) < 10.0
    && AbsReal(a.pixelHeight as real - d.PixelHeight()) < 10.0
  }

  /** `isScreenshot`: the store's screenshot flag when the system has it and it
      is set, otherwise the screen-size comparison. */
  function IsScreenshot(a: Asset, d: Device): (r: bool)
    ensures d.hasScreenshotSubtype && a.screenshotSubtype ==> r
    ensures !(d.hasScreenshotSubtype && a.screenshotSubtype) ==>
      (r <==>
         && a.pixelWidth as real - d.PixelWidth() < 10.0 && d.PixelWidth() - a.pixelWidth as real < 10.0
         && a.pixelHeight as real - d.PixelHeight() < 10.0 && d.PixelHeight() - a.pixelHeight as real < 10.0)
  {
    if d.hasScreenshotSubtype && a.screenshotSubtype then true
    else MatchesScreenSize(a, d)
  }

  predicate IsVideo(a: Asset) { a.kind == Video }

  /** The `videos` list built from a fetch. */
  function VideosOf(assets: seq<Asset>): (r: seq<Asset>)
    ensures forall a :: a in r <==> a in assets && a.kind == Video
    ensures IsSubsequence(r, assets)
  {
    Filter(assets, IsVideo)
  }

  predicate IsScreenshotImage(a: Asset, d: Device) { a.kind == Image && IsScreenshot(a, d) }

  /** The `screenshots` list built from a fetch. */
  function ScreenshotsOf(assets: seq<Asset>, d: Device): (r: seq<Asset>)
    ensures forall a :: a in r <==> a in assets && a.kind == Image && IsScreenshot(a, d)
    ensures IsSubsequence(r, assets)
  {
    Filter(assets, a => IsScreenshotImage(a, d))
  }

  /** No asset is both in the videos list and in the screenshots list. */
  lemma VideosAndScreenshotsDisjoint(assets: seq<Asset>, d: Device)
    ensures forall a :: a in VideosOf(assets) ==> a !in ScreenshotsOf(assets, d)
  {
  }

  /** `getTotalSizeOfPhotos`: an estimate of 3,000,000 bytes per asset. */
  function TotalSizeOfPhotos(assets: seq<Asset>): (bytes: int)
    ensures bytes == 0 <==> assets == []
    ensures bytes % 3_000_000 == 0 && bytes / 3_000_000 == |assets|
  {
    |assets| * 3_000_000
  }

  /** The estimate of two lists together is the sum of their estimates. */
  lemma TotalSizeAdds(xs: seq<Asset>, ys: seq<Asset>)
    ensures TotalSizeOfPhotos(xs + ys) == TotalSizeOfPhotos(xs) + TotalSizeOfPhotos(ys)
  {
  }

  /** One observable step of a load pass: the progress value and `isLoading`. */
  datatype LoadStep = LoadStep(progress: real, isLoading: bool)

  /** The steps one authorized `loadPhotos` pass goes through, in order. */
  const LoadPass: seq<LoadStep> :=
    [LoadStep(0.0, true), LoadStep(0.3, true), LoadStep(0.5, true), LoadStep(0.7, true), LoadStep(1.0, false)]

  /** Within a pass progress starts at 0, rises strictly and ends at 1, and
      loading stays on until the final step, which alone turns it off. */
  lemma LoadPassProgressRises()
    ensures LoadPass[0].progress == 0.0 && LoadPass[|LoadPass| - 1].progress == 1.0
    ensures forall i, j :: 0 <= i < j < |LoadPass| ==> LoadPass[i].progress < LoadPass[j].progress
    ensures forall i :: 0 <= i < |LoadPass| ==> (LoadPass[i].isLoading <==> i < |LoadPass| - 1)
    ensures forall i :: 0 <= i < |LoadPass| ==> 0.0 <= LoadPass[i].progress <= 1.0
  {
  }

  /** `PHFetchResult.enumerateObjects` appending each asset to an array. */
  method EnumerateObjects(result: seq<Asset>) returns (items: seq<Asset>)
    ensures items == result
  {
    items := [];
    var i := 0;
    while i < |result|
      invariant 0 <= i <= |result|
      invariant items == result[..i]
    {
      items := items + [result[i]];
      i := i + 1;
    }
  }

  class PhotoLibraryManager {
    var authorizationStatus: AuthorizationStatus
    var allPhotos: seq<Asset>
    var videos: seq<Asset>
    var screenshots: seq<Asset>
    var favorites: seq<Asset>
    var isLoading: bool
    var loadingProgress: real
    /** The fetch result kept for change notifications (`allPhotosResult`). */
    var allPhotosResult: Option<seq<Asset>>
    /** Every (progress, isLoading) pair a load has published, in order. */
    ghost var loadSteps: seq<LoadStep>

    constructor ()
      ensures authorizationStatus == NotDetermined
      ensures allPhotos == [] && videos == [] && screenshots == [] && favorites == []
      ensures !isLoading && loadingProgress == 0.0 && allPhotosResult == None
      ensures loadSteps == []
    {
      authorizationStatus := NotDetermined;
      allPhotos, videos, screenshots, favorites := [], [], [], [];
      isLoading, loadingProgress := false, 0.0;
      allPhotosResult := None;
      loadSteps := [];
    }

    function TotalPhotosCount(): int reads this { |allPhotos| }
    function VideosCount(): int reads this { |videos| }
    function ScreenshotsCount(): int reads this { |screenshots| }
    function FavoritesCount(): int reads this { |favorites| }

    /** `checkAuthorizationStatus`: records the status the store reports. */
    method CheckAuthorizationStatus(current: AuthorizationStatus)
      modifies this`authorizationStatus
      ensures authorizationStatus == current
    {
      authorizationStatus := current;
    }

    /** `loadPhotos`, run to completion: `fetched` is what the newest-first fetch
        of all assets returns and `favoriteResult` what the favourites query
        returns. Without authorization nothing changes. */
    method LoadPhotos(fetched: seq<Asset>, favoriteResult: seq<Asset>, d: Device)
      modifies this
      ensures old(authorizationStatus) != Authorized ==> unchanged(this)
      ensures old(authorizationStatus) == Authorized ==>
        && allPhotos == fetched
        && videos == VideosOf(fetched)
        && screenshots == ScreenshotsOf(fetched, d)
        && favorites == favoriteResult
        && allPhotosResult == Some(fetched)
        && loadingProgress == 1.0 && !isLoading
        && loadSteps == old(loadSteps) + LoadPass
        && authorizationStatus == old(authorizationStatus)
    {
      if authorizationStatus != Authorized {
        return;
      }
      isLoading := true;
      loadingProgress := 0.0;
      loadSteps := loadSteps + [LoadStep(loadingProgress, isLoading)];
      assert loadSteps == old(loadSteps) + LoadPass[..1];
      LoadInBackground(fetched, favoriteResult, d);
      assert LoadPass[..1] + LoadPass[1..] == LoadPass;
    }

    /** The part of `loadPhotos` that runs off the main thread. Its updates
        are posted to the main queue and applied in the order they are posted. */
    method LoadInBackground(fetched: seq<Asset>, favoriteResult: seq<Asset>, d: Device)
      requires isLoading
      modifies this
      ensures allPhotos == fetched
      ensures videos == VideosOf(fetched) && screenshots == ScreenshotsOf(fetched, d)
      ensures favorites == favoriteResult
      ensures allPhotosResult == Some(fetched)
      ensures loadingProgress == 1.0 && !isLoading
      ensures loadSteps == old(loadSteps) + LoadPass[1..]
      ensures authorizationStatus == old(authorizationStatus)
    {
      allPhotosResult := Some(fetched);
      var allPhotosArray := EnumerateObjects(fetched);
      PostProgress(0.3);
      var videoList := VideosOf(allPhotosArray);
      PostProgress(0.5);
      var screenshotList := ScreenshotsOf(allPhotosArray, d);
      PostProgress(0.7);
      var favoritesArray := EnumerateObjects(favoriteResult);
      Publish(allPhotosArray, videoList, screenshotList, favoritesArray);
      assert LoadPass[1..] == [LoadStep(0.3, true), LoadStep(0.5, true), LoadStep(0.7, true), LoadStep(1.0, false)];
    }

    /** A progress update posted to the main queue. */
    method PostProgress(progress: real)
      modifies this`loadingProgress, this`loadSteps
      ensures loadingProgress == progress
      ensures loadSteps == old(loadSteps) + [LoadStep(progress, isLoading)]
    {
      loadingProgress := progress;
      loadSteps := loadSteps + [LoadStep(loadingProgress, isLoading)];
    }

    /** The last update of a pass: all four lists at once, then progress 1 and
        loading off. */
    method Publish(all: seq<Asset>, videoList: seq<Asset>, screenshotList: seq<Asset>, favoriteList: seq<Asset>)
      modifies this`allPhotos, this`videos, this`screenshots, this`favorites
      modifies this`loadingProgress, this`isLoading, this`loadSteps
      ensures allPhotos == all && videos == videoList
      ensures screenshots == screenshotList && favorites == favoriteList
      ensures loadingProgress == 1.0 && !isLoading
      ensures loadSteps == old(loadSteps) + [LoadStep(1.0, false)]
    {
      allPhotos := all;
      videos := videoList;
      screenshots := screenshotList;
      favorites := favoriteList;
      loadingProgress := 1.0;
      isLoading := false;
      loadSteps := loadSteps + [LoadStep(loadingProgress, isLoading)];
    }

    /** The completion of `requestAuthorization`: records the granted status
        and loads the library when it is `.authorized`. */
    method AuthorizationResolved(status: AuthorizationStatus, fetched: seq<Asset>,
                                 favoriteResult: seq<Asset>, d: Device)
      modifies this
      ensures authorizationStatus == status
      ensures status != Authorized ==>
        allPhotos == old(allPhotos) && videos == old(videos) && screenshots == old(screenshots)
        && favorites == old(favorites) && isLoading == old(isLoading)
        && loadingProgress == old(loadingProgress) && allPhotosResult == old(allPhotosResult)
        && loadSteps == old(loadSteps)
      ensures status == Authorized ==>
        allPhotos == fetched && videos == VideosOf(fetched) && screenshots == ScreenshotsOf(fetched, d)
        && favorites == favoriteResult && !isLoading && loadingProgress == 1.0
        && allPhotosResult == Some(fetched) && loadSteps == old(loadSteps) + LoadPass
    {
      authorizationStatus := status;
      if status == Authorized {
        LoadPhotos(fetched, favoriteResult, d);
      }
    }

    /** `photoLibraryDidChange`: when a fetch result is stored and the change
        has details for it, store the changed result and reload everything;
        otherwise do nothing. `refetched` and `favoriteResult` are what the
        reload's queries return. */
    method PhotoLibraryDidChange(changeDetails: Option<seq<Asset>>, refetched: seq<Asset>,
                                 favoriteResult: seq<Asset>, d: Device)
      modifies this
      ensures old(allPhotosResult).None? || changeDetails.None? ==> unchanged(this)
      ensures old(allPhotosResult).Some? && changeDetails.Some? && old(authorizationStatus) != Authorized ==>
        allPhotosResult == changeDetails
        && allPhotos == old(allPhotos) && videos == old(videos) && screenshots == old(screenshots)
        && favorites == old(favorites) && isLoading == old(isLoading)
        && loadingProgress == old(loadingProgress) && loadSteps == old(loadSteps)
        && authorizationStatus == old(authorizationStatus)
      ensures old(allPhotosResult).Some? && changeDetails.Some? && old(authorizationStatus) == Authorized ==>
        allPhotos == refetched && videos == VideosOf(refetched)
        && screenshots == ScreenshotsOf(refetched, d) && favorites == favoriteResult
        && allPhotosResult == Some(refetched) && !isLoading && loadingProgress == 1.0
        && loadSteps == old(loadSteps) + LoadPass
        && authorizationStatus == old(authorizationStatus)
    {
      if allPhotosResult.Some? && changeDetails.Some? {
        allPhotosResult := changeDetails;
        LoadPhotos(refetched, favoriteResult, d);
      }
    }
  }
}

/** RealPhotoView.swift: one library asset shown as a tile. The tile loads
    its image from the manager, shows a spinner meanwhile, and badges the
    asset as a video, a favourite or a screenshot. The grid that lays out
    the tiles fixes their width from the screen's. */
module RealPhoto {
  import opened Collections
  import opened Platform
  import opened Library

  /** The tile's `isScreenshot`: on a system that has the screenshot subtype
      (`#available(iOS 9.0, *)`) the store's flag alone decides; otherwise
      the screen-size comparison the manager also uses. */
  function BadgeIsScreenshot(a: Asset, d: Device): (r: bool)
    ensures d.hasScreenshotSubtype ==> (r <==> a.screenshotSubtype)
    ensures !d.hasScreenshotSubtype ==> (r <==> MatchesScreenSize(a, d))
  {
    if d.hasScreenshotSubtype then a.screenshotSubtype else MatchesScreenSize(a, d)
  }

  /** Where the subtype is missing, the badge and the manager's classifier
      agree; everywhere, a badged asset is one the classifier accepts. */
  lemma BadgeWithinClassifier(a: Asset, d: Device)
    ensures !d.hasScreenshotSubtype ==> (BadgeIsScreenshot(a, d) <==> IsScreenshot(a, d))
    ensures BadgeIsScreenshot(a, d) ==> IsScreenshot(a, d)
  {
  }

  /** The converse fails: on a 390 x 844 point screen at scale 3, an
      unflagged 1170 x 2532 image is a screenshot to the manager but gets no
      badge. */
  lemma ScreenSizedImageNotBadged()
    ensures var d := Device(390.0, 844.0, 3.0, true);
      var a := Asset(1, Image, 1170, 2532, false, false, None);
      IsScreenshot(a, d) && !BadgeIsScreenshot(a, d)
  {
    var d := Device(390.0, 844.0, 3.0, true);
    assert d.PixelWidth() == 1170.0 && d.PixelHeight() == 2532.0;
  }

  /** The badges of `overlayContent`. */
  datatype Badges = Badges(video: bool, favorite: bool, screenshot: bool)

  /** `overlayContent`: a play badge exactly for videos, a heart exactly for
      favourites, a screenshot badge exactly as `BadgeIsScreenshot` says. */
  function Overlay(a: Asset, d: Device): (b: Badges)
    ensures b.video <==> a.kind == Video
    ensures b.favorite <==> a.isFavorite
    ensures b.screenshot <==> BadgeIsScreenshot(a, d)
  {
    Badges(a.kind == Video, a.isFavorite, BadgeIsScreenshot(a, d))
  }

  /** A video never carries the screenshot badge on a system with the
      subtype, as long as the store flags only images. */
  lemma VideoBadgesExclusive(a: Asset, d: Device)
    requires d.hasScreenshotSubtype && (a.screenshotSubtype ==> a.kind == Image)
    ensures !(Overlay(a, d).video && Overlay(a, d).screenshot)
  {
  }

  /** An image the manager delivers. */
  type ImageRef = int

  /** The request `loadImage` sends to `PhotoLibraryManager.loadImage`. */
  datatype ImageRequest = ImageRequest(asset: AssetId, width: real, height: real)

  /** What the tile shows. */
  datatype Display = ShowsImage(image: ImageRef) | ShowsSpinner | ShowsPlaceholder

  /** The tile's state: its asset, its target size, and the `@State` pair
      `image`/`isLoading`. */
  class RealPhotoViewState {
    var asset: Asset
    const width: real
    const height: real
    var image: Option<ImageRef>
    var isLoading: bool

    /** A fresh tile: nothing loaded yet and the spinner on. */
    constructor (asset: Asset, width: real, height: real)
      ensures this.asset == asset && this.width == width && this.height == height
      ensures image == None && isLoading
      ensures CurrentDisplay() == ShowsSpinner
    {
      this.asset := asset;
      this.width, this.height := width, height;
      image, isLoading := None, true;
    }

    /** The view body: the image once there is one, otherwise the placeholder
        with a spinner while loading. */
    function CurrentDisplay(): (v: Display)
      reads this
      ensures v.ShowsImage? <==> image.Some?
      ensures v == ShowsSpinner <==> image.None? && isLoading
    {
      match image
      case Some(i) => ShowsImage(i)
      case None => if isLoading then ShowsSpinner else ShowsPlaceholder
    }

    /** `loadImage`: clears the image, turns the spinner on and requests the
        current asset at the tile's size. */
    method LoadImage() returns (request: ImageRequest)
      modifies this`image, this`isLoading
      ensures image == None && isLoading
      ensures CurrentDisplay() == ShowsSpinner
      ensures request == ImageRequest(asset.id, width, height)
    {
      isLoading := true;
      image := None;
      request := ImageRequest(asset.id, width, height);
    }

    /** The completion of a load: stores what arrived, nothing included, and
        turns the spinner off. */
    method ImageDelivered(loaded: Option<ImageRef>)
      modifies this`image, this`isLoading
      ensures image == loaded && !isLoading
      ensures CurrentDisplay() != ShowsSpinner
    {
      image := loaded;
      isLoading := false;
    }

    /** `onChange(of: asset)`: the view always holds the asset it was given.
        Photo-store assets compare equal by identifier, so an asset with a
        new identifier is loaded afresh and one with the same identifier
        causes no reload. */
    method OnAssetChange(newAsset: Asset) returns (request: Option<ImageRequest>)
      modifies this`asset, this`image, this`isLoading
      ensures asset == newAsset
      ensures newAsset.id == old(asset).id ==> request == None && image == old(image) && isLoading == old(isLoading)
      ensures newAsset.id != old(asset).id ==>
        request == Some(ImageRequest(newAsset.id, width, height)) && image == None && isLoading
    {
      var changed := newAsset.id != asset.id;
      asset := newAsset;
      if changed {
        var r := LoadImage();
        request := Some(r);
      } else {
        request := None;
      }
    }
  }

  /** `PhotoGridView`: three columns, two points apart, inside 16 points of
      padding on either side. */
  const GridColumns: int := 3
  const GridSpacing: real := 2.0

  /** `itemWidth`: the columns and the gaps between them, with the padding,
      fill the screen's width exactly. */
  function ItemWidth(screenWidth: real): (w: real)
    ensures (GridColumns as real) * w + ((GridColumns - 1) as real) * GridSpacing + 32.0 == screenWidth
  {
    (screenWidth - (((GridColumns - 1) as real) * GridSpacing + 32.0)) / (GridColumns as real)
  }
}

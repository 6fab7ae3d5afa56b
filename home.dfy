/** HomeView.swift: the navigation destinations of the home screen, with
    their hand-written equality and hashing, and the per-category counts,
    progress ratios and progress colours of the category and timeline cards. */
module Home {
  import opened Models
  import opened Library
  import opened Triage

  /** `SwipeViewDestination`: where a tap on the home screen navigates. */
  datatype SwipeViewDestination =
    | CategoryDestination(category: PhotoCategory)
    | TimeGroupDestination(timeGroup: string)
    | AlbumDestination(album: AlbumInfo)

  /** `SwipeViewDestination.==`: same case and same payload, where an album
      is compared by its `id` alone. */
  predicate DestinationsEqual(lhs: SwipeViewDestination, rhs: SwipeViewDestination)
  {
    match (lhs, rhs)
    case (CategoryDestination(l), CategoryDestination(r)) => l == r
    case (TimeGroupDestination(l), TimeGroupDestination(r)) => l == r
    case (AlbumDestination(l), AlbumDestination(r)) => l.id == r.id
    case _ => false
  }

  /** The values `hash(into:)` feeds to the hasher. */
  datatype HashInput = Tag(name: string) | CategoryInput(category: PhotoCategory) | TextInput(text: string) | IdInput(id: CollectionId)

  /** `SwipeViewDestination.hash(into:)`, as the sequence of values combined
      into the hasher: a tag naming the case, then the payload. */
  function HashFeed(d: SwipeViewDestination): (feed: seq<HashInput>)
    ensures |feed| == 2 && feed[0].Tag?
  {
    match d
    case CategoryDestination(c) => [Tag("category"), CategoryInput(c)]
    case TimeGroupDestination(g) => [Tag("timeGroup"), TextInput(g)]
    case AlbumDestination(a) => [Tag("album"), IdInput(a.id)]
  }

  /** Equal destinations hash alike, as `Hashable` requires. */
  lemma EqualDestinationsHashAlike(lhs: SwipeViewDestination, rhs: SwipeViewDestination)
    requires DestinationsEqual(lhs, rhs)
    ensures HashFeed(lhs) == HashFeed(rhs)
  {
  }

  /** The hasher is fed exactly what `==` compares: destinations that feed
      the same values are equal. */
  lemma SameHashFeedMeansEqual(lhs: SwipeViewDestination, rhs: SwipeViewDestination)
    requires HashFeed(lhs) == HashFeed(rhs)
    ensures DestinationsEqual(lhs, rhs)
  {
    assert HashFeed(lhs)[0] == HashFeed(rhs)[0];
    assert HashFeed(lhs)[1] == HashFeed(rhs)[1];
  }

  /** `==` is an equivalence relation. */
  lemma DestinationEqualityIsEquivalence(a: SwipeViewDestination, b: SwipeViewDestination, c: SwipeViewDestination)
    ensures DestinationsEqual(a, a)
    ensures DestinationsEqual(a, b) ==> DestinationsEqual(b, a)
    ensures DestinationsEqual(a, b) && DestinationsEqual(b, c) ==> DestinationsEqual(a, c)
  {
  }

  /** Two album destinations are equal exactly when their ids are, whatever
      else the albums hold; destinations of different cases never are. */
  lemma AlbumDestinationsById(a1: AlbumInfo, a2: AlbumInfo, d: SwipeViewDestination, e: SwipeViewDestination)
    ensures DestinationsEqual(AlbumDestination(a1), AlbumDestination(a2)) <==> a1.id == a2.id
    ensures d.CategoryDestination? != e.CategoryDestination? ==> !DestinationsEqual(d, e)
    ensures d.TimeGroupDestination? != e.TimeGroupDestination? ==> !DestinationsEqual(d, e)
    ensures d.AlbumDestination? != e.AlbumDestination? ==> !DestinationsEqual(d, e)
  {
  }

  /** `getPhotoCount(for: PhotoCategory)`: the library count that matches the
      category, which is the length of the list that category browses. */
  function GetPhotoCount(dm: DataManager, category: PhotoCategory): (n: int)
    reads dm, dm.library
    ensures n == |dm.RealPhotos(category)|
    ensures category == All ==> n == |dm.library.allPhotos|
    ensures category == Favorites ==> n == |dm.library.favorites|
  {
    match category
    case All => dm.library.TotalPhotosCount()
    case Videos => dm.library.VideosCount()
    case Screenshots => dm.library.ScreenshotsCount()
    case Favorites => dm.library.FavoritesCount()
  }

  /** The ratio `getProgressFor` computes: zero for an empty category,
      otherwise organised over total, not capped at one. */
  function ProgressRatio(organized: int, total: int): (r: real)
    ensures total <= 0 ==> r == 0.0
    ensures total > 0 ==> r * (total as real) == organized as real
    ensures total > 0 && 0 <= organized <= total ==> 0.0 <= r <= 1.0
  {
    if total > 0 then (organized as real) / (total as real) else 0.0
  }

  /** `getProgressFor(category:)`. */
  function GetProgressFor(dm: DataManager, category: PhotoCategory): (r: real)
    reads dm, dm.library
    ensures r == ProgressRatio(dm.GetOrganizedCount(category), |dm.RealPhotos(category)|)
  {
    ProgressRatio(dm.GetOrganizedCount(category), GetPhotoCount(dm, category))
  }

  /** The ratio is not capped: staged assets count for every category, so a
      category smaller than the staging sets reports more than 100%. */
  lemma ProgressCanExceedOne()
    ensures ProgressRatio(3, 2) > 1.0
  {
  }

  /** `CategoryCard.progressColor` and `TimelineCard.progressColor`: the
      first band whose lower bound the progress reaches. */
  function CardProgressColor(progress: real): (c: Color)
    ensures c == Yellow <==> 0.9 <= progress
    ensures c == Green <==> 0.8 <= progress < 0.9
    ensures c == Blue <==> 0.6 <= progress < 0.8
    ensures c == Cyan <==> 0.4 <= progress < 0.6
    ensures c == Purple <==> progress < 0.4
  {
    if progress >= 0.9 then Yellow
    else if progress >= 0.8 then Green
    else if progress >= 0.6 then Blue
    else if progress >= 0.4 then Cyan
    else Purple
  }

  /** The cards use the bands of `TimeGroup.progressColor`, with cyan where
      that one uses teal. */
  lemma CardColorsFollowTimeGroupBands(progress: real)
    ensures CardProgressColor(progress) == if ProgressColor(progress) == Teal then Cyan else ProgressColor(progress)
  {
  }

  /** The percentage `TimelineCard` prints: `Int(progress * 100)`. */
  function TimelinePercent(progress: real): (p: int)
    ensures 0.0 <= progress <= 1.0 ==> 0 <= p <= 100
    ensures 0.0 <= progress ==> p as real <= progress * 100.0 < p as real + 1.0
  {
    TruncateToInt(progress * 100.0)
  }
}

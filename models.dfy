/** Value types of Models.swift: statuses, categories, the fixed time groups with
    their progress figures, the `Photo` and `Album` records and the statistics
    shown after a triage session. */
module Models {
  import opened Collections
  import opened Platform

  datatype PhotoStatus = Unprocessed | Kept | ToDelete | Favorited | Skipped

  datatype PhotoCategory = All | Videos | Screenshots | Favorites

  datatype TimeGroup = Today | ThisWeek | January2025 | December2024 | November2024

  /** The colours the progress rings use, by name. */
  datatype Color = Yellow | Green | Blue | Teal | Cyan | Purple

  /** `TimeGroup.progress`: a fixed figure per group. */
  function Progress(g: TimeGroup): real
  {
    match g
    case Today => 0.85
    case ThisWeek => 0.62
    case January2025 => 0.45
    case December2024 => 0.78
    case November2024 => 0.92
  }

  /** `TimeGroup.progressColor`, the ranges of its `switch` tried in order. */
  function ProgressColor(progress: real): (c: Color)
    ensures c == Yellow <==> 0.9 <= progress
    ensures c == Green <==> 0.8 <= progress < 0.9
    ensures c == Blue <==> 0.6 <= progress < 0.8
    ensures c == Teal <==> 0.4 <= progress < 0.6
    ensures c == Purple <==> progress < 0.4
    ensures c != Cyan
  {
    if 0.9 <= progress then Yellow
    else if 0.8 <= progress && progress < 0.9 then Green
    else if 0.6 <= progress && progress < 0.8 then Blue
    else if 0.4 <= progress && progress < 0.6 then Teal
    else Purple
  }

  /** The band each fixed group figure lands in. */
  lemma TimeGroupColors()
    ensures ProgressColor(Progress(Today)) == Green
    ensures ProgressColor(Progress(ThisWeek)) == Blue
    ensures ProgressColor(Progress(January2025)) == Teal
    ensures ProgressColor(Progress(December2024)) == Blue
    ensures ProgressColor(Progress(November2024)) == Yellow
  {
  }

  type PhotoId = int

  /** `Photo`; `id` stands for the `UUID()` each photo draws when created. */
  datatype Photo = Photo(
    id: PhotoId,
    imageName: string,
    dateCreated: Date,
    location: Option<string>,
    device: string,
    status: PhotoStatus,
    category: PhotoCategory,
    isVideo: bool,
    fileSize: real)

  /** `Photo.init` with its default arguments. The default creation date is
      the current time, so the caller passes it. */
  function NewPhoto(id: PhotoId, imageName: string, dateCreated: Date,
                    location: Option<string> := None,
                    device: string := "iPhone 15 Pro",
                    status: PhotoStatus := Unprocessed,
                    category: PhotoCategory := All,
                    isVideo: bool := false,
                    fileSize: real := 3.2): Photo
  {
    Photo(id, imageName, dateCreated, location, device, status, category, isVideo, fileSize)
  }

  /** A photo built with only the required arguments is unprocessed, in the
      "all" category, not a video, 3.2 MB, from an iPhone 15 Pro, with no location. */
  lemma NewPhotoDefaults(id: PhotoId, imageName: string, dateCreated: Date)
    ensures var p := NewPhoto(id, imageName, dateCreated);
      && p.status == Unprocessed && p.category == All && !p.isVideo && p.fileSize == 3.2
      && p.device == "iPhone 15 Pro" && p.location == None
      && p.id == id && p.imageName == imageName && p.dateCreated == dateCreated
  {
  }

  /** `Photo.timeGroup`: today first, then this week, then the three month
      groups, the last of which takes every remaining date. */
  function PhotoTimeGroup(p: Photo, cal: Calendar): (g: TimeGroup)
    ensures g == Today <==> cal.isDateInToday(p.dateCreated)
    ensures g == ThisWeek <==>
      !cal.isDateInToday(p.dateCreated) && cal.sameWeek(p.dateCreated, cal.now)
    ensures g == January2025 <==>
      !cal.isDateInToday(p.dateCreated) && !cal.sameWeek(p.dateCreated, cal.now)
      && cal.year(p.dateCreated) == 2025 && cal.month(p.dateCreated) == 1
    ensures g == December2024 <==>
      !cal.isDateInToday(p.dateCreated) && !cal.sameWeek(p.dateCreated, cal.now)
      && cal.year(p.dateCreated) == 2024 && cal.month(p.dateCreated) == 12
    ensures g == November2024 <==>
      !cal.isDateInToday(p.dateCreated) && !cal.sameWeek(p.dateCreated, cal.now)
      && !(cal.year(p.dateCreated) == 2025 && cal.month(p.dateCreated) == 1)
      && !(cal.year(p.dateCreated) == 2024 && cal.month(p.dateCreated) == 12)
  {
    var d := p.dateCreated;
    if cal.isDateInToday(d) then Today
    else if cal.sameWeek(d, cal.now) then ThisWeek
    else
      var y, m := cal.year(d), cal.month(d);
      if y == 2025 && m == 1 then January2025
      else if y == 2024 && m == 12 then December2024
      else November2024
  }

  type AlbumId = int

  /** `Album`; `color` names the colour the user picked. */
  datatype Album = Album(id: AlbumId, name: string, icon: string, color: string,
                         photos: seq<Photo>, dateCreated: Date)

  /** `Album.photoCount`. */
  function AlbumPhotoCount(a: Album): (n: nat)
    ensures n == 0 <==> a.photos == []
  {
    |a.photos|
  }

  /** `Album.coverPhoto`: the first photo, absent exactly for an empty album. */
  function CoverPhoto(a: Album): (c: Option<Photo>)
    ensures c.None? <==> AlbumPhotoCount(a) == 0
    ensures c.Some? ==> c.value == a.photos[0] && c.value in a.photos
  {
    if a.photos == [] then None else Some(a.photos[0])
  }

  /** `OrganizeStats`; `spaceSaved` is in MB and `timeSpent` in seconds. */
  datatype OrganizeStats = OrganizeStats(
    totalPhotos: int,
    deletedPhotos: int,
    keptPhotos: int,
    favoritedPhotos: int,
    spaceSaved: real,
    timeSpent: real)

  /** `OrganizeStats()` with every field at its default. */
  const InitialStats := OrganizeStats(0, 0, 0, 0, 0.0, 0.0)

  /** The unit and amount `formattedSpaceSaved` prints. */
  datatype SpaceLabel = Megabytes(amount: real) | Gigabytes(amount: real)

  /** `formattedSpaceSaved`: whole MB below 1000, otherwise GB counted in 1024 MB. */
  function FormattedSpaceSaved(s: OrganizeStats): (l: SpaceLabel)
    ensures l.Megabytes? <==> s.spaceSaved < 1000.0
    ensures l.Megabytes? ==> l.amount == s.spaceSaved
    ensures l.Gigabytes? ==> l.amount * 1024.0 == s.spaceSaved && l.amount >= 1000.0 / 1024.0
  {
    if s.spaceSaved < 1000.0 then Megabytes(s.spaceSaved) else Gigabytes(s.spaceSaved / 1024.0)
  }

  /** Swift's `Int(_: Double)`: drops the fraction, rounding toward zero. */
  function TruncateToInt(t: real): (n: int)
    ensures 0.0 <= t ==> 0 <= n && n as real <= t < n as real + 1.0
    ensures t < 0.0 ==> n <= 0 && n as real - 1.0 < t <= n as real
  {
    if 0.0 <= t then t.Floor else -((-t).Floor)
  }

  /** Swift's `/` on `Int`: the quotient rounded toward zero. */
  function TruncatingQuotient(a: int, d: int): int
    requires d > 0
  {
    if a >= 0 then a / d else -((-a) / d)
  }

  /** Swift's `%` on `Int`: the remainder takes the sign of the dividend. */
  function TruncatingRemainder(a: int, d: int): int
    requires d > 0
  {
    if a >= 0 then a % d else -((-a) % d)
  }

  /** Quotient and remainder recombine to the dividend, and the remainder is
      below the divisor in size with the dividend's sign. */
  lemma {:induction false} TruncatingDivision(a: int, d: int)
    requires d > 0
    ensures d * TruncatingQuotient(a, d) + TruncatingRemainder(a, d) == a
    ensures a >= 0 ==> 0 <= TruncatingRemainder(a, d) < d
    ensures a < 0 ==> -d < TruncatingRemainder(a, d) <= 0
  {
    if a < 0 {
      var b := -a;
      assert d * (b / d) + b % d == b;
      assert d * TruncatingQuotient(a, d) == -(d * (b / d));
    }
  }

  /** The minutes and seconds `formattedTimeSpent` prints. */
  datatype TimeLabel = TimeLabel(minutes: int, seconds: int)

  /** `formattedTimeSpent`: whole seconds split into minutes and seconds. */
  function FormattedTimeSpent(s: OrganizeStats): (l: TimeLabel)
    ensures l.minutes * 60 + l.seconds == TruncateToInt(s.timeSpent)
    ensures 0.0 <= s.timeSpent ==> 0 <= l.seconds < 60 && 0 <= l.minutes
    ensures s.timeSpent < 0.0 ==> -60 < l.seconds <= 0 && l.minutes <= 0
  {
    var whole := TruncateToInt(s.timeSpent);
    TruncatingDivision(whole, 60);
    TimeLabel(TruncatingQuotient(whole, 60), TruncatingRemainder(whole, 60))
  }

  /** A negative duration splits toward zero, not as Euclidean division
      would (-2 minutes and 59 seconds): -61.5 seconds prints as -1 and -1. */
  lemma NegativeTimeSplit()
    ensures FormattedTimeSpent(InitialStats.(timeSpent := -61.5)) == TimeLabel(-1, -1)
  {
  }
}

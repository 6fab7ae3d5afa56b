/** SwipePhotoView.swift: the swipe card. A drag moves and tilts the card; on
    release the translation picks at most one triage action, and the card
    returns to rest. The actions themselves are `DataManager` members that
    DataManager.swift does not define, so the model names the action issued. */
module SwipeView {
  import opened Collections
  import opened Platform
  import opened Models

  /** The `dataManager` call a gesture or a button issues. */
  datatype SwipeAction = DeleteCurrent | KeepCurrent | FavoriteCurrent | SkipCurrent | UndoLast

  /** The distance a drag must exceed, strictly, to count. */
  const SwipeThreshold: real := 100.0

  /** The distance past which the swipe indicator shows. */
  const IndicatorThreshold: real := 50.0

  /** The decision of `handleSwipeGesture` for a release at translation
      (`w`, `h`): the horizontal axis is tried first, the vertical one only
      when the horizontal displacement does not exceed the threshold. */
  function ClassifySwipe(w: real, h: real): (r: Option<SwipeAction>)
    ensures r.None? <==> AbsReal(w) <= SwipeThreshold && AbsReal(h) <= SwipeThreshold
    ensures r.Some? ==> r.value != UndoLast
    ensures r == Some(DeleteCurrent) <==> AbsReal(w) > SwipeThreshold && w < 0.0
    ensures r == Some(KeepCurrent) <==> AbsReal(w) > SwipeThreshold && w > 0.0
    ensures r == Some(FavoriteCurrent) <==> AbsReal(w) <= SwipeThreshold && AbsReal(h) > SwipeThreshold && h < 0.0
    ensures r == Some(SkipCurrent) <==> AbsReal(w) <= SwipeThreshold && AbsReal(h) > SwipeThreshold && h > 0.0
  {
    if AbsReal(w) > SwipeThreshold then
      if w < 0.0 then Some(DeleteCurrent) else Some(KeepCurrent)
    else if AbsReal(h) > SwipeThreshold then
      if h < 0.0 then Some(FavoriteCurrent) else Some(SkipCurrent)
    else None
  }

  /** Horizontal wins: once the horizontal displacement passes the threshold,
      the vertical one does not matter. */
  lemma HorizontalWins(w: real, h1: real, h2: real)
    requires AbsReal(w) > SwipeThreshold
    ensures ClassifySwipe(w, h1) == ClassifySwipe(w, h2)
    ensures ClassifySwipe(w, h1).Some? && ClassifySwipe(w, h1).value in {DeleteCurrent, KeepCurrent}
  {
  }

  /** Mirroring a horizontal swipe swaps delete and keep. */
  lemma MirroredSwipe(w: real, h: real)
    requires AbsReal(w) > SwipeThreshold
    ensures ClassifySwipe(w, h) == Some(DeleteCurrent) <==> ClassifySwipe(-w, h) == Some(KeepCurrent)
  {
  }

  /** Which way the swipe indicator points. */
  datatype IndicatorDirection = PointsLeft | PointsRight

  /** The swipe indicator: shown exactly when the horizontal offset exceeds
      50, pointing left exactly when the offset is negative. */
  function SwipeIndicator(w: real): (r: Option<IndicatorDirection>)
    ensures r.Some? <==> AbsReal(w) > IndicatorThreshold
    ensures r == Some(PointsLeft) <==> AbsReal(w) > IndicatorThreshold && w < 0.0
  {
    if AbsReal(w) > IndicatorThreshold then Some(if w < 0.0 then PointsLeft else PointsRight) else None
  }

  /** While the finger rests where a horizontal swipe will be decided, the
      indicator already points the way of the decision: left for delete,
      right for keep. */
  lemma IndicatorAnnouncesDecision(w: real, h: real)
    ensures ClassifySwipe(w, h) == Some(DeleteCurrent) ==> SwipeIndicator(w) == Some(PointsLeft)
    ensures ClassifySwipe(w, h) == Some(KeepCurrent) ==> SwipeIndicator(w) == Some(PointsRight)
  {
  }

  /** The list a swipe session works through. */
  datatype PhotoSource = CategorySource(category: PhotoCategory) | TimeGroupSource(group: TimeGroup) | AllPhotosSource

  /** `filteredPhotos`: a selected category wins over a selected time group,
      which wins over the whole library. */
  function FilteredPhotosSource(category: Option<PhotoCategory>, group: Option<TimeGroup>): (r: PhotoSource)
    ensures r.CategorySource? <==> category.Some?
    ensures r.CategorySource? ==> r.category == category.value
    ensures r.TimeGroupSource? <==> category.None? && group.Some?
    ensures r.TimeGroupSource? ==> r.group == group.value
  {
    match category
    case Some(c) => CategorySource(c)
    case None =>
      match group
      case Some(g) => TimeGroupSource(g)
      case None => AllPhotosSource
  }

  /** With a category chosen, the time group is ignored. */
  lemma CategoryOverridesTimeGroup(c: PhotoCategory, g1: Option<TimeGroup>, g2: Option<TimeGroup>)
    ensures FilteredPhotosSource(Some(c), g1) == FilteredPhotosSource(Some(c), g2)
  {
  }

  /** The card's gesture state: the drag offset and the tilt. */
  class SwipeCard {
    var dragWidth: real
    var dragHeight: real
    var rotationAngle: real

    /** The card at rest. */
    predicate AtRest()
      reads this
    {
      dragWidth == 0.0 && dragHeight == 0.0 && rotationAngle == 0.0
    }

    constructor ()
      ensures AtRest()
    {
      dragWidth, dragHeight, rotationAngle := 0.0, 0.0, 0.0;
    }

    /** The drag's `onChanged`: the card follows the finger and tilts by a
        tenth of the horizontal offset. */
    method OnDragChanged(w: real, h: real)
      modifies this
      ensures dragWidth == w && dragHeight == h
      ensures rotationAngle * 10.0 == w
      ensures SwipeIndicator(dragWidth).Some? <==> AbsReal(w) > IndicatorThreshold
    {
      dragWidth, dragHeight := w, h;
      rotationAngle := w / 10.0;
    }

    /** `resetCardPosition`. */
    method ResetCardPosition()
      modifies this
      ensures AtRest()
      ensures SwipeIndicator(dragWidth).None?
    {
      dragWidth, dragHeight, rotationAngle := 0.0, 0.0, 0.0;
    }

    /** `handleSwipeGesture`: issues the action the release translation
        selects, if any, then puts the card back at rest whatever happened. */
    method HandleSwipeGesture(w: real, h: real) returns (action: Option<SwipeAction>)
      modifies this
      ensures action == ClassifySwipe(w, h)
      ensures AtRest()
    {
      action := ClassifySwipe(w, h);
      ResetCardPosition();
    }

    /** The favourite button: favourites the current photo and resets the card. */
    method FavoriteButtonTapped() returns (action: SwipeAction)
      modifies this
      ensures action == FavoriteCurrent && AtRest()
    {
      action := FavoriteCurrent;
      ResetCardPosition();
    }

    /** The delete button: deletes the current photo and resets the card. */
    method DeleteButtonTapped() returns (action: SwipeAction)
      modifies this
      ensures action == DeleteCurrent && AtRest()
    {
      action := DeleteCurrent;
      ResetCardPosition();
    }

    /** The undo button: undoes without touching the card. */
    method UndoButtonTapped() returns (action: SwipeAction)
      ensures action == UndoLast
    {
      action := UndoLast;
    }
  }
}

/** AlbumsView.swift: the album list screen. A search field narrows the
    list, a row dragged far enough asks to edit or delete its album, and the
    add-album sheet only commits a named album. The list itself and its
    `addAlbum`/`deleteAlbum(at:)` are `DataManager` members that
    DataManager.swift does not define, so the model returns the request the
    screen would issue. */
module AlbumsScreen {
  import opened Collections
  import opened Platform
  import opened Models

  /** Case folding of the ASCII letters. */
  function FoldChar(c: char): (f: char)
    ensures 'A' <= c <= 'Z' ==> 'a' <= f <= 'z' && f as int == c as int + 32
    ensures !('A' <= c <= 'Z') ==> f == c
    ensures !('A' <= f <= 'Z')
  {
    if 'A' <= c <= 'Z' then (c as int - 'A' as int + 'a' as int) as char else c
  }

  function FoldString(s: string): (f: string)
    ensures |f| == |s|
    ensures forall i :: 0 <= i < |s| ==> f[i] == FoldChar(s[i])
  {
    seq(|s|, i requires 0 <= i < |s| => FoldChar(s[i]))
  }

  /** Folding twice is folding once. */
  lemma FoldStringIdempotent(s: string)
    ensures FoldString(FoldString(s)) == FoldString(s)
  {
  }

  predicate IsPrefix(needle: string, hay: string)
  {
    |needle| <= |hay| && hay[..|needle|] == needle
  }

  /** `needle` occurs as a contiguous run somewhere in `hay`. */
  predicate IsInfix(needle: string, hay: string)
    decreases |hay|
  {
    IsPrefix(needle, hay) || (hay != [] && IsInfix(needle, hay[1..]))
  }

  /** The empty text occurs in every name. */
  lemma EmptyIsInfix(hay: string)
    ensures IsInfix([], hay)
  {
    assert IsPrefix([], hay);
  }

  /** `localizedCaseInsensitiveContains` on an album's name. */
  predicate NameMatches(a: Album, text: string)
  {
    IsInfix(FoldString(text), FoldString(a.name))
  }

  /** The search ignores the case of the text typed: two texts that differ
      only in the case of their letters match the same album names. */
  lemma SearchIgnoresCase(a: Album, text1: string, text2: string)
    requires FoldString(text1) == FoldString(text2)
    ensures NameMatches(a, text1) <==> NameMatches(a, text2)
  {
  }

  /** Two search texts that differ only in the case of their letters, such as
      "trip" and "TRIP", list the same albums in the same order. */
  lemma SameFoldSameAlbums(albums: seq<Album>, text1: string, text2: string)
    requires FoldString(text1) == FoldString(text2)
    ensures FilteredAlbums(albums, text1) == FilteredAlbums(albums, text2)
  {
    if text1 != [] {
      FilterAgrees(albums, a => NameMatches(a, text1), a => NameMatches(a, text2));
    }
  }

  /** `filteredAlbums`: the whole list for an empty search text, otherwise
      the albums whose name contains the text, in list order. */
  function FilteredAlbums(albums: seq<Album>, text: string): (r: seq<Album>)
    ensures text == [] ==> r == albums
    ensures forall a :: a in r <==> a in albums && NameMatches(a, text)
    ensures IsSubsequence(r, albums)
  {
    if text == [] then
      assert forall a :: a in albums ==> NameMatches(a, text) by {
        forall a | a in albums ensures NameMatches(a, text) {
          EmptyIsInfix(FoldString(a.name));
        }
      }
      FilterKeepsAll(albums, a => NameMatches(a, text));
      albums
    else Filter(albums, a => NameMatches(a, text))
  }

  /** `deleteAlbum`: the position passed to `deleteAlbum(at:)`, the first
      album with the given album's id; none, and no call, when no album has
      that id. */
  function DeleteAlbumIndex(albums: seq<Album>, album: Album): (index: Option<nat>)
    ensures index.None? <==> forall i :: 0 <= i < |albums| ==> albums[i].id != album.id
    ensures index.Some? ==> index.value < |albums| && albums[index.value].id == album.id
    ensures index.Some? ==> forall j :: 0 <= j < index.value ==> albums[j].id != album.id
  {
    FirstIndex(albums, (a: Album) => a.id == album.id)
  }

  /** An album taken from the list is always found. */
  lemma ListedAlbumIsFound(albums: seq<Album>, album: Album)
    requires album in albums
    ensures DeleteAlbumIndex(albums, album).Some?
  {
    var i :| 0 <= i < |albums| && albums[i] == album;
  }

  /** What a row asks of the screen when a drag ends. */
  datatype RowAction = EditAlbum | DeleteAlbum

  /** The distance a row drag must exceed, strictly, to count. */
  const RowDragThreshold: real := 100.0

  /** `AlbumRow`'s drag-end decision: right past the threshold edits, left
      past it deletes, anything shorter does nothing. */
  function RowDragAction(w: real): (r: Option<RowAction>)
    ensures r.None? <==> AbsReal(w) <= RowDragThreshold
    ensures r == Some(EditAlbum) <==> w > RowDragThreshold
    ensures r == Some(DeleteAlbum) <==> w < -RowDragThreshold
  {
    if AbsReal(w) > RowDragThreshold then
      if w > 0.0 then Some(EditAlbum) else Some(DeleteAlbum)
    else None
  }

  /** The distance past which a row reveals its edit and delete buttons. */
  const RevealThreshold: real := 20.0

  /** The buttons behind a row show while it is dragged more than 20 points
      either way, so a drag long enough to act has revealed them first. */
  lemma DecisiveDragRevealsButtons(w: real)
    ensures RowDragAction(w).Some? ==> AbsReal(w) > RevealThreshold
  {
  }

  /** An album row's drag offset. */
  class AlbumRow {
    var dragWidth: real
    var dragHeight: real

    constructor ()
      ensures dragWidth == 0.0 && dragHeight == 0.0
    {
      dragWidth, dragHeight := 0.0, 0.0;
    }

    /** Whether the edit and delete buttons behind the row are shown. */
    predicate ButtonsRevealed()
      reads this
    {
      AbsReal(dragWidth) > RevealThreshold
    }

    /** The drag's `onChanged`: the row follows the finger. */
    method OnDragChanged(w: real, h: real)
      modifies this
      ensures dragWidth == w && dragHeight == h
      ensures ButtonsRevealed() <==> w > RevealThreshold || w < -RevealThreshold
    {
      dragWidth, dragHeight := w, h;
    }

    /** The drag's `onEnded`: calls back as `RowDragAction` decides and
        springs the row back to rest in every case. */
    method OnDragEnded(w: real, h: real) returns (action: Option<RowAction>)
      modifies this
      ensures action == RowDragAction(w)
      ensures dragWidth == 0.0 && dragHeight == 0.0 && !ButtonsRevealed()
    {
      action := RowDragAction(w);
      dragWidth, dragHeight := 0.0, 0.0;
    }
  }

  /** The album `addAlbum` is asked to create. */
  datatype AlbumDraft = AlbumDraft(name: string, icon: string, color: string)

  /** The "完成" (Done) button of `AddAlbumView`: an album is requested, with
      exactly the chosen name, icon and colour, only for a non-empty name. */
  function DoneTapped(name: string, icon: string, color: string): (request: Option<AlbumDraft>)
    ensures request.Some? <==> name != []
    ensures request.Some? ==> request.value == AlbumDraft(name, icon, color)
  {
    if name != [] then Some(AlbumDraft(name, icon, color)) else None
  }

  /** The preview title of `AddAlbumView`: a placeholder until a name is typed. */
  function PreviewTitle(name: string): (title: string)
    ensures name != [] ==> title == name
    ensures title != []
  {
    if name == [] then "新相册" else name
  }
}

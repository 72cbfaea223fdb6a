/** The media gallery widget used by the product page and the banner editor: which items its
    slider shows and in what order, which item is the active one, and how a picked item
    (a local file or an item of the server's media library) is routed to the parent's
    callbacks. The parent's callbacks are recorded as a log of calls. */
module MediaGallery {
  import opened Wrappers
  import opened Media
  import opened Lists

  /** `mode`: one item at a time (a banner image) or a list of items (a product's media). */
  datatype Mode = Single | Multiple

  /** The key the slider filters on. */
  function SrcOf(m: MediaItem): string { m.src }

  /** `sliderData`. In single mode: the selected item, else the first item, else nothing.
      In multiple mode: the list as it is when nothing is selected, otherwise the selected
      item followed by every other item whose `src` differs from it. */
  function SliderData(mode: Mode, media: seq<MediaItem>, selected: Option<MediaItem>): seq<MediaItem> {
    match mode
    case Single =>
      if selected.Some? then [selected.value] else if |media| > 0 then [media[0]] else []
    case Multiple =>
      if selected.None? then media else [selected.value] + WithoutId(media, SrcOf, selected.value.src)
  }

  /** Single mode shows at most one item, and shows one exactly when something is selected or
      there is an item; the selected item wins over the first item. */
  lemma SingleModeShowsOne(media: seq<MediaItem>, selected: Option<MediaItem>)
    ensures |SliderData(Single, media, selected)| <= 1
    ensures SliderData(Single, media, selected) == [] <==> selected.None? && media == []
    ensures selected.Some? ==> SliderData(Single, media, selected) == [selected.value]
    ensures selected.None? && media != [] ==> SliderData(Single, media, selected) == [media[0]]
  {
  }

  /** Multiple mode puts the selected item first and follows it with the list filtered by
      `src`: no later slide shares its `src`, every item with another `src` is still there, and
      nothing else is. A selected item that is not in the list by `src` is simply put in front
      of the whole list. */
  lemma MultipleModeSelectedFirst(media: seq<MediaItem>, sel: MediaItem)
    ensures SliderData(Multiple, media, Some(sel)) == [sel] + WithoutId(media, SrcOf, sel.src)
    ensures forall i :: 1 <= i < |SliderData(Multiple, media, Some(sel))| ==>
              SliderData(Multiple, media, Some(sel))[i].src != sel.src
    ensures forall m :: m in media && m.src != sel.src ==> m in SliderData(Multiple, media, Some(sel))
    ensures forall m :: m in SliderData(Multiple, media, Some(sel)) ==> m == sel || m in media
    ensures (forall m :: m in media ==> m.src != sel.src) ==> SliderData(Multiple, media, Some(sel)) == [sel] + media
  {
    var r := SliderData(Multiple, media, Some(sel));
    var tail := WithoutId(media, SrcOf, sel.src);
    WithoutIdMembers(media, SrcOf, sel.src);
    forall i | 1 <= i < |r|
      ensures r[i].src != sel.src
    {
      assert r[i] == tail[i - 1] && tail[i - 1] in tail;
    }
    if forall m :: m in media ==> m.src != sel.src {
      forall k | 0 <= k < |media| ensures SrcOf(media[k]) != sel.src {
        assert media[k] in media;
      }
      WithoutIdAbsent(media, SrcOf, sel.src);
    }
  }

  /** The slides after the selection keep the list's order: the slider of a list joined from
      two parts is the slider of the first part followed by the filtered second part. */
  lemma {:induction false} MultipleModeKeepsOrder(a: seq<MediaItem>, b: seq<MediaItem>, sel: MediaItem)
    ensures SliderData(Multiple, a + b, Some(sel)) == SliderData(Multiple, a, Some(sel)) + WithoutId(b, SrcOf, sel.src)
  {
    WithoutIdAppend(a, b, SrcOf, sel.src);
  }

  /** `activeMedia`: the single slide (or nothing) in single mode, the selection in multiple mode. */
  function ActiveMedia(mode: Mode, media: seq<MediaItem>, selected: Option<MediaItem>): (r: Option<MediaItem>)
    ensures mode.Multiple? ==> r == selected
    ensures r.Some? ==> SliderData(mode, media, selected) != [] && r.value == SliderData(mode, media, selected)[0]
    ensures mode.Single? && r.None? ==> SliderData(mode, media, selected) == []
  {
    match mode
    case Single => First(SliderData(mode, media, selected))
    case Multiple => selected
  }

  /** What the file input or the library grid hands to `handleMediaSelection`. */
  datatype Pick =
    | NoFile                                    // a file input change that carries no file
    | LocalPick(file: LocalFile, objectUrl: string)
    | LibraryPick(item: MediaItem)

  /** The media item a pick stands for, if any. */
  function PickedItem(p: Pick): (r: Option<MediaItem>)
    ensures r.None? <==> p.NoFile?
    ensures p.LocalPick? ==> r == Some(FromLocalFile(p.file, p.objectUrl))
  {
    match p
    case NoFile => None
    case LocalPick(f, url) => Some(FromLocalFile(f, url))
    case LibraryPick(m) => Some(m)
  }

  /** The callbacks the parent may pass. Every call site calls its callback unconditionally,
      so a missing one throws, except two: after a pick `onSelectMedia` is called only when
      present, and the single-mode trash button calls `onDeleteMedia` only when present. */
  datatype Handlers = Handlers(setSelectedMedia: bool, onAddMedia: bool, onSelectMedia: bool, onDeleteMedia: bool)

  /** A call made to one of the parent's callbacks. */
  datatype Call =
    | SetSelectedMedia(m: MediaItem)
    | AddMedia(m: MediaItem)
    | SelectMedia(m: MediaItem)
    | DeleteMedia(index: Option<int>)

  /** The callbacks `handleMediaSelection` makes for an item, or `None` when it calls a callback
      that was not passed, which throws before the modal is closed. */
  function Route(mode: Mode, h: Handlers, m: MediaItem): (r: Option<seq<Call>>)
    ensures mode.Single? ==> (r.Some? <==> h.setSelectedMedia)
    ensures mode.Single? && r.Some? ==> r.value == [SetSelectedMedia(m)]
    ensures mode.Multiple? ==> (r.Some? <==> h.onAddMedia)
    ensures mode.Multiple? && r.Some? ==>
              (|r.value| >= 1 && r.value[0] == AddMedia(m)
               && r.value[1..] == (if h.onSelectMedia then [SelectMedia(m)] else []))
    ensures r.Some? ==> forall c :: c in r.value ==> !c.DeleteMedia? && c.m == m
  {
    match mode
    case Single => if h.setSelectedMedia then Some([SetSelectedMedia(m)]) else None
    case Multiple =>
      if !h.onAddMedia then None
      else Some([AddMedia(m)] + if h.onSelectMedia then [SelectMedia(m)] else [])
  }

  /** The gallery widget: its props (the list, the selection, the mode and the callbacks the
      parent passed), its modal's open state and the log of calls it has made. */
  class Gallery {
    var mode: Mode
    var media: seq<MediaItem>
    var selected: Option<MediaItem>
    var handlers: Handlers
    var editable: bool
    var open: bool
    var calls: seq<Call>

    constructor (mode: Mode, media: seq<MediaItem>, selected: Option<MediaItem>, handlers: Handlers, editable: bool)
      ensures this.mode == mode && this.media == media && this.selected == selected && this.handlers == handlers
      ensures this.editable == editable && !open && calls == []
    {
      this.mode, this.media, this.selected, this.handlers, this.editable := mode, media, selected, handlers, editable;
      open, calls := false, [];
    }

    /** The slides on show. */
    function Slides(): seq<MediaItem>
      reads this
    {
      SliderData(mode, media, selected)
    }

    /** "Universe gallery" opens the library modal; its menu is rendered only in an editable
        gallery. */
    method OpenLibrary()
      requires editable
      modifies this
      ensures open
      ensures mode == old(mode) && media == old(media) && selected == old(selected)
      ensures handlers == old(handlers) && editable == old(editable) && calls == old(calls)
    {
      open := true;
    }

    /** `handleMediaSelection`: a file input with no file changes nothing; otherwise the item is
        routed to the callbacks and the modal closes, unless a missing callback throws first,
        in which case nothing is called and the modal stays as it was. */
    method HandleSelection(p: Pick) returns (threw: bool)
      modifies this
      ensures mode == old(mode) && media == old(media) && selected == old(selected) && handlers == old(handlers)
      ensures editable == old(editable)
      ensures p.NoFile? ==> !threw && open == old(open) && calls == old(calls)
      ensures !p.NoFile? ==> threw == Route(mode, handlers, PickedItem(p).value).None?
      ensures !p.NoFile? && !threw ==> !open && calls == old(calls) + Route(mode, handlers, PickedItem(p).value).value
      ensures threw ==> open == old(open) && calls == old(calls)
    {
      threw := false;
      var item := PickedItem(p);
      if item.Some? {
        var routed := Route(mode, handlers, item.value);
        if routed.None? {
          threw := true;
        } else {
          calls := calls + routed.value;
          open := false;
        }
      }
    }

    /** The slider's `beforeChange`: the slide moved to becomes the selection. The callback
        is called unguarded, so without `onSelectMedia` it throws and nothing is called. */
    method SlideChange(newIndex: int) returns (threw: bool)
      requires mode.Multiple? && 0 <= newIndex < |Slides()|
      modifies this
      ensures threw == !handlers.onSelectMedia
      ensures !threw ==> calls == old(calls) + [SelectMedia(old(Slides())[newIndex])]
      ensures threw ==> calls == old(calls)
      ensures mode == old(mode) && media == old(media) && selected == old(selected)
      ensures handlers == old(handlers) && editable == old(editable) && open == old(open)
    {
      threw := !handlers.onSelectMedia;
      if !threw {
        calls := calls + [SelectMedia(Slides()[newIndex])];
      }
    }

    /** A click on thumbnail `idx` selects that item; the callback is called unguarded, as in
        `SlideChange`. */
    method ThumbnailClick(idx: int) returns (threw: bool)
      requires mode.Multiple? && 0 <= idx < |media|
      modifies this
      ensures threw == !handlers.onSelectMedia
      ensures !threw ==> calls == old(calls) + [SelectMedia(old(media)[idx])]
      ensures threw ==> calls == old(calls)
      ensures mode == old(mode) && media == old(media) && selected == old(selected)
      ensures handlers == old(handlers) && editable == old(editable) && open == old(open)
    {
      threw := !handlers.onSelectMedia;
      if !threw {
        calls := calls + [SelectMedia(media[idx])];
      }
    }

    /** A thumbnail's trash button asks the parent to delete item `idx`; the single-mode trash
        button asks for a deletion without an index, and only when the parent passed a handler.
        Both buttons are rendered only in an editable gallery, the single-mode one only while
        a slide is active. */
    method DeleteClick(idx: int) returns (threw: bool)
      requires editable
      requires mode.Single? ==> ActiveMedia(mode, media, selected).Some?
      requires mode.Multiple? ==> 0 <= idx < |media|
      modifies this
      ensures mode.Multiple? ==> threw == !handlers.onDeleteMedia
      ensures mode.Single? ==> !threw
      ensures !threw && handlers.onDeleteMedia ==>
                calls == old(calls) + [DeleteMedia(if mode.Multiple? then Some(idx) else None)]
      ensures threw || !handlers.onDeleteMedia ==> calls == old(calls)
      ensures mode == old(mode) && media == old(media) && selected == old(selected)
      ensures handlers == old(handlers) && editable == old(editable) && open == old(open)
    {
      threw := false;
      if !handlers.onDeleteMedia {
        threw := mode.Multiple?;
      } else {
        calls := calls + [DeleteMedia(if mode.Multiple? then Some(idx) else None)];
      }
    }
  }

  /** With the selection being the item just added (what the product page does on upload), the
      slider of a multiple-mode gallery opens on that item. */
  lemma NewItemShownFirst(media: seq<MediaItem>, m: MediaItem)
    ensures SliderData(Multiple, media + [m], Some(m))[0] == m
    ensures ActiveMedia(Multiple, media + [m], Some(m)) == Some(m)
  {
  }
}

/** The home-page banner: a carousel of slides that advances on a timer, and the editor
    modal in which an administrator composes a new slide (picture, title, button text, link)
    or deletes one. */
module Banner {
  import opened Wrappers
  import opened Strings
  import opened Media
  import opened MediaGallery
  import opened Lists

  /** A slide as the API returns it. */
  datatype Slide = Slide(id: string, title: string, img: string, button: string, link: string)

  function SlideId(s: Slide): string {
    s.id
  }

  /** `normalizeBannerSrc`: a falsy list is returned as it is; otherwise each slide's `img`
      is made absolute and nothing else changes. */
  function NormalizeBannerSrc(base: string, input: Option<seq<Slide>>): (r: Option<seq<Slide>>)
    ensures r.None? <==> input.None?
    ensures input.Some? ==> |r.value| == |input.value|
    ensures input.Some? ==> forall i :: 0 <= i < |input.value| ==>
              r.value[i] == input.value[i].(img := r.value[i].img)
              && (StartsWith(input.value[i].img, "http") ==> r.value[i].img == input.value[i].img)
              && (!StartsWith(input.value[i].img, "http") ==> r.value[i].img == base + input.value[i].img)
  {
    match input
    case None => None
    case Some(slides) =>
      Some(seq(|slides|, i requires 0 <= i < |slides| => slides[i].(img := Absolutize(base, slides[i].img))))
  }

  /** With an absolute base URL every banner picture is absolute after normalising, and
      normalising again changes nothing. */
  lemma BannerSrcAbsolute(base: string, slides: seq<Slide>)
    requires StartsWith(base, "http")
    ensures forall i :: 0 <= i < |slides| ==> StartsWith(NormalizeBannerSrc(base, Some(slides)).value[i].img, "http")
    ensures NormalizeBannerSrc(base, NormalizeBannerSrc(base, Some(slides))) == NormalizeBannerSrc(base, Some(slides))
  {
    var once := NormalizeBannerSrc(base, Some(slides)).value;
    var twice := NormalizeBannerSrc(base, Some(once)).value;
    forall i | 0 <= i < |slides|
      ensures StartsWith(once[i].img, "http") && twice[i] == once[i]
    {
      AbsolutizeIdempotent(base, slides[i].img);
    }
    assert twice == once;
  }

  /** The slides the carousel renders: `slides.map((s, index) => index === k && <slide>)`,
      walked from the front. */
  function RenderedAt(slides: seq<Slide>, k: int): seq<Slide>
    decreases |slides|
  {
    if slides == [] then []
    else (if k == 0 then [slides[0]] else []) + RenderedAt(slides[1..], k - 1)
  }

  /** Exactly the slide at the current index is rendered, and nothing when the index is past
      the end. */
  lemma {:induction false} RenderedIsCurrent(slides: seq<Slide>, k: int)
    ensures 0 <= k < |slides| ==> RenderedAt(slides, k) == [slides[k]]
    ensures !(0 <= k < |slides|) ==> RenderedAt(slides, k) == []
    decreases |slides|
  {
    if slides != [] {
      RenderedIsCurrent(slides[1..], k - 1);
      if 0 < k < |slides| {
        assert slides[1..][k - 1] == slides[k];
      }
    }
  }

  /** The slide being composed in the editor: its texts, and the picked picture as a preview
      URL and, for a local upload, the file (an absent preview is the empty string). */
  datatype Draft = Draft(title: string, button: string, link: string, preview: string, file: Option<LocalFile>)

  function DefaultDraft(): (d: Draft)
    ensures d.preview == [] && d.file.None? && d.title == []
  {
    Draft("", "Discover Selection", "/", "", None)
  }

  /** What the gallery's add callback does with a picked item: keep its file (if any) and use
      its URL as the preview. */
  function Picked(d: Draft, m: MediaItem): (r: Draft)
    ensures r.file == m.file && r.preview == m.src
    ensures r.title == d.title && r.button == d.button && r.link == d.link
  {
    d.(file := m.file, preview := m.src)
  }

  /** What the editor hands to its single-mode gallery: the preview as an image item. */
  function GalleryMedia(d: Draft): seq<MediaItem> {
    if d.preview != [] then [MediaItem(d.preview, Image, "", d.file)] else []
  }

  function GallerySelection(d: Draft): Option<MediaItem> {
    if d.preview != [] then Some(MediaItem(d.preview, Image, "", None)) else None
  }

  /** The callbacks the editor passes to its gallery, as written: an add callback and a
      delete callback, but no `setSelectedMedia`, the one callback single mode calls. */
  const BannerHandlersAsWritten: Handlers := Handlers(false, true, false, true)

  /** As written, every pick in the editor's gallery throws before reaching the draft: the
      picture never gets to the form. */
  lemma BannerPickThrows(m: MediaItem)
    ensures Route(Single, BannerHandlersAsWritten, m).None?
  {
  }

  /** The callbacks with the add callback also passed as `setSelectedMedia`. */
  const BannerHandlers: Handlers := Handlers(true, true, false, true)

  /** Every pick reaches the draft through one `setSelectedMedia` call, after which the
      gallery shows the picked picture (when it has a URL). */
  lemma BannerPickReachesDraft(d: Draft, m: MediaItem)
    ensures Route(Single, BannerHandlers, m) == Some([SetSelectedMedia(m)])
    ensures m.src != [] ==>
              SliderData(Single, GalleryMedia(Picked(d, m)), GallerySelection(Picked(d, m)))
              == [MediaItem(m.src, Image, "", None)]
  {
  }

  /** How the picture travels in the create request: the file itself, or the URL of an item
      of the media library. */
  datatype ImagePart = FilePart(f: LocalFile) | UrlPart(url: string)

  datatype Request = Request(title: string, button: string, link: string, image: ImagePart)

  /** `handleSubmit` as written: no file means a warning and no request; otherwise the file
      is sent. */
  function RequestAsWritten(d: Draft): (r: Option<Request>)
    ensures r.None? <==> d.file.None?
    ensures r.Some? ==> r.value == Request(d.title, d.button, d.link, FilePart(d.file.value))
  {
    if d.file.None? then None else Some(Request(d.title, d.button, d.link, FilePart(d.file.value)))
  }

  /** As written, a picture taken from the media library (which carries no file) is always
      refused, and the URL branch of the request is never taken. */
  lemma LibraryPickRefused(d: Draft, m: MediaItem)
    requires m.file.None? && m.src != []
    ensures RequestAsWritten(Picked(d, m)).None?
    ensures forall e :: RequestAsWritten(e).Some? ==> RequestAsWritten(e).value.image.FilePart?
  {
  }

  /** The request with the library case handled: the file when there is one, otherwise the
      preview URL, and a warning only when there is no picture at all. */
  function RequestFor(d: Draft): (r: Option<Request>)
    ensures r.None? <==> d.file.None? && d.preview == []
    ensures r.Some? ==> r.value.title == d.title && r.value.button == d.button && r.value.link == d.link
    ensures d.file.Some? ==> r == RequestAsWritten(d)
    ensures d.file.None? && d.preview != [] ==> r.value.image == UrlPart(d.preview)
  {
    if d.file.Some? then Some(Request(d.title, d.button, d.link, FilePart(d.file.value)))
    else if d.preview != [] then Some(Request(d.title, d.button, d.link, UrlPart(d.preview)))
    else None
  }

  /** Every picked picture, local or from the library, is sent with the slide. */
  lemma EveryPickIsSent(d: Draft, m: MediaItem)
    requires m.src != []
    ensures RequestFor(Picked(d, m)).Some?
    ensures m.file.Some? ==> RequestFor(Picked(d, m)).value.image == FilePart(m.file.value)
    ensures m.file.None? ==> RequestFor(Picked(d, m)).value.image == UrlPart(m.src)
  {
  }

  /** The slide list and index after a confirmed delete, as written: the index is kept. */
  function DeleteAsWritten(slides: seq<Slide>, currentIndex: nat, id: string): (seq<Slide>, nat) {
    (WithoutId(slides, SlideId, id), currentIndex)
  }

  /** As written, deleting the last slide while it is shown leaves the index past the end:
      with two slides showing the second, deleting it leaves one slide, nothing rendered and
      the timer off (it needs two slides), so the banner stays blank. */
  lemma DeleteShownLastSlideBlanks(a: Slide, b: Slide)
    requires a.id != b.id
    ensures DeleteAsWritten([a, b], 1, b.id).0 == [a]
    ensures RenderedAt(DeleteAsWritten([a, b], 1, b.id).0, DeleteAsWritten([a, b], 1, b.id).1) == []
    ensures |DeleteAsWritten([a, b], 1, b.id).0| <= 1
  {
    WithoutIdExactlyOne([a], b, [], SlideId);
    assert [a] + [b] + [] == [a, b];
    RenderedIsCurrent([a], 1);
  }

  /** The banner: its slides, the index of the slide shown, whether the editor is open, the
      draft being composed and whether a request is under way. */
  class BannerView {
    var slides: seq<Slide>
    var currentIndex: nat
    var open: bool
    var draft: Draft

    /** The index points at a slide whenever there is one. */
    predicate Valid()
      reads this
    {
      currentIndex == 0 || currentIndex < |slides|
    }

    function Rendered(): seq<Slide>
      reads this
    {
      RenderedAt(slides, currentIndex)
    }

    /** The timer runs only with more than one slide and the editor closed. */
    predicate Autoplay()
      reads this
    {
      |slides| > 1 && !open
    }

    /** The banner once the slides are fetched (a failed fetch leaves the list empty). */
    constructor (base: string, fetched: seq<Slide>)
      ensures slides == NormalizeBannerSrc(base, Some(fetched)).value
      ensures currentIndex == 0 && !open && draft == DefaultDraft()
      ensures Valid() && (slides != [] ==> Rendered() == [slides[0]])
    {
      slides := NormalizeBannerSrc(base, Some(fetched)).value;
      currentIndex, open, draft := 0, false, DefaultDraft();
      new;
      RenderedIsCurrent(slides, 0);
    }

    /** One timer tick: the next slide, wrapping round after the last. */
    method Tick()
      requires Valid() && Autoplay()
      modifies this
      ensures slides == old(slides) && open == old(open) && draft == old(draft)
      ensures currentIndex == (old(currentIndex) + 1) % |slides|
      ensures Valid() && Rendered() == [slides[currentIndex]]
    {
      currentIndex := (currentIndex + 1) % |slides|;
      RenderedIsCurrent(slides, currentIndex);
    }

    /** A click on indicator `idx` shows slide `idx`. */
    method ClickIndicator(idx: int)
      requires 0 <= idx < |slides|
      modifies this
      ensures slides == old(slides) && open == old(open) && draft == old(draft)
      ensures currentIndex == idx && Rendered() == [slides[idx]] && Valid()
    {
      currentIndex := idx;
      RenderedIsCurrent(slides, idx);
    }

    /** The editor opens (the timer stops) or closes. */
    method SetOpen(value: bool)
      modifies this
      ensures open == value && !(open && Autoplay())
      ensures slides == old(slides) && currentIndex == old(currentIndex) && draft == old(draft)
    {
      open := value;
    }

    /** The gallery's `setSelectedMedia(m)` under `BannerHandlers`. */
    method SelectImage(m: MediaItem)
      modifies this
      ensures draft == Picked(old(draft), m)
      ensures slides == old(slides) && currentIndex == old(currentIndex) && open == old(open)
    {
      draft := Picked(draft, m);
    }

    /** The gallery's delete button: the picture is dropped from the draft. */
    method ClearImage()
      modifies this
      ensures draft == old(draft).(file := None, preview := [])
      ensures RequestFor(draft).None? && GalleryMedia(draft) == []
      ensures slides == old(slides) && currentIndex == old(currentIndex) && open == old(open)
    {
      draft := draft.(file := None, preview := []);
    }

    /** Publishing the draft. Without a picture nothing is sent and nothing changes. Otherwise
        the request goes out; when the server answers with the new slide, it is appended with
        an absolute picture, the draft is reset and the editor closes; when it fails, nothing
        changes. */
    method Submit(base: string, response: Option<Slide>) returns (sent: Option<Request>)
      requires Valid()
      modifies this
      ensures sent == RequestFor(old(draft))
      ensures sent.Some? && response.Some? ==>
                slides == old(slides) + [response.value.(img := Absolutize(base, response.value.img))]
                && draft == DefaultDraft() && !open
      ensures sent.None? || response.None? ==>
                slides == old(slides) && draft == old(draft) && open == old(open)
      ensures currentIndex == old(currentIndex) && Valid()
    {
      sent := RequestFor(draft);
      if sent.Some? && response.Some? {
        var created := response.value;
        slides := slides + [created.(img := Absolutize(base, created.img))];
        draft := DefaultDraft();
        open := false;
      }
    }

    /** A delete, confirmed by the user and by the server, drops the slides carrying that id
        and keeps the others in order; an index left past the end goes back to the first
        slide, so a slide is shown whenever one is left. */
    method Delete(id: string, confirmed: bool, succeeded: bool)
      requires Valid()
      modifies this
      ensures confirmed && succeeded ==> slides == WithoutId(old(slides), SlideId, id)
      ensures !(confirmed && succeeded) ==> slides == old(slides) && currentIndex == old(currentIndex)
      ensures old(currentIndex) < |slides| ==> currentIndex == old(currentIndex)
      ensures old(currentIndex) >= |slides| ==> currentIndex == 0
      ensures Valid() && (slides != [] ==> |Rendered()| == 1)
      ensures open == old(open) && draft == old(draft)
    {
      if confirmed && succeeded {
        var kept := WithoutId(slides, SlideId, id);
        slides := kept;
        if currentIndex >= |kept| {
          currentIndex := 0;
        }
      }
      RenderedIsCurrent(slides, currentIndex);
    }
  }
}

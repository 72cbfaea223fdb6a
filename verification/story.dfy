/** The home-page story strip: short videos shown as cards, a full-screen reel that steps
    through them one at a time (buttons or a vertical drag), and the administrator's create
    and delete actions. */
module Story {
  import opened Wrappers
  import opened Strings
  import opened Media
  import opened Lists

  /** A story as the API returns it; `videoUrl` may be missing. */
  datatype StorySlide = StorySlide(id: string, title: string, description: string, cta: string,
                                   link: string, videoUrl: Option<string>)

  function StoryId(s: StorySlide): string {
    s.id
  }

  /** The video URL the strip uses: an "http" URL is kept; anything else becomes
      `base + "/" + path` with every backslash turned into a slash (a missing path prints as
      "undefined"). */
  function VideoUrl(base: string, videoUrl: Option<string>): (r: string)
    ensures videoUrl.Some? && StartsWith(videoUrl.value, "http") ==> r == videoUrl.value
    ensures videoUrl.Some? && !StartsWith(videoUrl.value, "http") ==>
              r == base + "/" + ReplaceChar(videoUrl.value, '\\', '/')
    ensures videoUrl.None? ==> r == base + "/undefined"
  {
    if videoUrl.Some? && StartsWith(videoUrl.value, "http") then videoUrl.value
    else base + "/" + (if videoUrl.Some? then ReplaceChar(videoUrl.value, '\\', '/') else "undefined")
  }

  /** The path part of a rewritten URL has no backslash left, and with an absolute base URL
      a rewritten URL is kept as it is by a second pass. */
  lemma VideoUrlSettles(base: string, videoUrl: Option<string>)
    requires StartsWith(base, "http")
    ensures StartsWith(VideoUrl(base, videoUrl), "http")
    ensures VideoUrl(base, Some(VideoUrl(base, videoUrl))) == VideoUrl(base, videoUrl)
    ensures videoUrl.Some? && !StartsWith(videoUrl.value, "http") ==>
              '\\' !in VideoUrl(base, videoUrl)[|base| + 1..]
  {
    var path := if videoUrl.Some? then ReplaceChar(videoUrl.value, '\\', '/') else "undefined";
    StartsWithAppend(base, "/" + path, "http");
    assert base + "/" + path == base + ("/" + path);
    if videoUrl.Some? && !StartsWith(videoUrl.value, "http") {
      assert VideoUrl(base, videoUrl)[|base| + 1..] == path;
    }
  }

  /** The list the strip stores after a fetch: `(data || []).map(...)` with each video URL
      rewritten and every other field kept. */
  function NormalizeStories(base: string, data: seq<StorySlide>): (r: seq<StorySlide>)
    ensures |r| == |data|
    ensures forall i :: 0 <= i < |data| ==>
              r[i] == data[i].(videoUrl := Some(VideoUrl(base, data[i].videoUrl)))
  {
    seq(|data|, i requires 0 <= i < |data| => data[i].(videoUrl := Some(VideoUrl(base, data[i].videoUrl))))
  }

  /** Every story in a normalised list carries an absolute video URL. */
  predicate AllAbsolute(slides: seq<StorySlide>) {
    forall i :: 0 <= i < |slides| ==> slides[i].videoUrl.Some? && StartsWith(slides[i].videoUrl.value, "http")
  }

  lemma NormalizedStoriesAbsolute(base: string, data: seq<StorySlide>)
    requires StartsWith(base, "http")
    ensures AllAbsolute(NormalizeStories(base, data))
  {
    forall i | 0 <= i < |data| {
      VideoUrlSettles(base, data[i].videoUrl);
    }
  }

  /** After a successful create the strip re-fetches the stories; as written, it stores them
      as they come, without rewriting the video URLs. */
  function RefetchAsWritten(data: seq<StorySlide>): seq<StorySlide> {
    data
  }

  /** A story whose video the server stores as a relative Windows-style path plays from the
      rewritten URL after the first load, but from the raw path after a create. */
  lemma RefetchKeepsRelativeUrl(base: string, s: StorySlide)
    requires StartsWith(base, "http") && s.videoUrl == Some("uploads\\reel.mp4")
    ensures !StartsWith(RefetchAsWritten([s])[0].videoUrl.value, "http")
    ensures StartsWith(NormalizeStories(base, [s])[0].videoUrl.value, "http")
  {
    assert RefetchAsWritten([s])[0].videoUrl.value[0] == 'u';
    NormalizedStoriesAbsolute(base, [s]);
  }

  /** The full-screen reel: the stories it was opened on and the index shown. */
  class Reel {
    var slides: seq<StorySlide>
    var index: int

    /** `slides[index]`, which is undefined off the list; the reel then renders nothing. */
    function Current(): (r: Option<StorySlide>)
      reads this
      ensures r.Some? <==> 0 <= index < |slides|
      ensures r.Some? ==> r.value == slides[index]
    {
      if 0 <= index < |slides| then Some(slides[index]) else None
    }

    /** The up button is disabled on the first story, the down button on the last. */
    predicate PrevDisabled()
      reads this
    {
      index == 0
    }

    predicate NextDisabled()
      reads this
    {
      index == |slides| - 1
    }

    /** The indicator `i` is highlighted. */
    predicate Highlighted(i: int)
      reads this
    {
      i == index
    }

    constructor (slides: seq<StorySlide>, startIndex: int)
      ensures this.slides == slides && index == startIndex
    {
      this.slides, index := slides, startIndex;
    }

    /** `handleNext`: one story on, unless this is the last one. */
    method Next()
      modifies this
      ensures slides == old(slides)
      ensures old(index) < |slides| - 1 ==> index == old(index) + 1
      ensures old(index) >= |slides| - 1 ==> index == old(index)
      ensures old(NextDisabled()) ==> index == old(index)
      ensures 0 <= old(index) < |slides| ==> 0 <= index < |slides|
    {
      if index < |slides| - 1 {
        index := index + 1;
      }
    }

    /** `handlePrev`: one story back, unless this is the first one. */
    method Prev()
      modifies this
      ensures slides == old(slides)
      ensures old(index) > 0 ==> index == old(index) - 1
      ensures old(index) <= 0 ==> index == old(index)
      ensures old(PrevDisabled()) ==> index == old(index)
      ensures 0 <= old(index) < |slides| ==> 0 <= index < |slides|
    {
      if index > 0 {
        index := index - 1;
      }
    }

    /** The end of a vertical drag by `offsetY` pixels: up by more than 50 goes on, down by
        more than 50 goes back, anything shorter leaves the reel where it is. */
    method DragEnd(offsetY: real)
      modifies this
      ensures slides == old(slides)
      ensures offsetY < -50.0 && old(index) < |slides| - 1 ==> index == old(index) + 1
      ensures offsetY > 50.0 && old(index) > 0 ==> index == old(index) - 1
      ensures -50.0 <= offsetY <= 50.0 ==> index == old(index)
      ensures 0 <= old(index) < |slides| ==> 0 <= index < |slides|
    {
      if offsetY < -50.0 {
        Next();
      } else if offsetY > 50.0 {
        Prev();
      }
    }
  }

  /** The story being composed: its texts and the chosen video file. */
  datatype StoryDraft = StoryDraft(title: string, description: string, cta: string, link: string, video: Option<LocalFile>)

  function EmptyStoryDraft(): (d: StoryDraft)
    ensures d.video.None?
  {
    StoryDraft("", "", "", "", None)
  }

  /** The strip: the stories, whether the editor is open and the draft. */
  class StoryStrip {
    var slides: seq<StorySlide>
    var open: bool
    var draft: StoryDraft

    /** The strip after the first fetch (a failed fetch leaves the list empty). */
    constructor (base: string, fetched: seq<StorySlide>)
      ensures slides == NormalizeStories(base, fetched) && !open && draft == EmptyStoryDraft()
    {
      slides, open, draft := NormalizeStories(base, fetched), false, EmptyStoryDraft();
    }

    /** A card click opens the reel on that story. */
    method OpenReel(i: int) returns (reel: Reel)
      ensures fresh(reel) && reel.slides == slides && reel.index == i
    {
      reel := new Reel(slides, i);
    }

    /** Publishing: without a video the user is alerted and nothing is sent. Otherwise the
        story is created; once the server has it the editor closes. Then the stories are
        fetched again (`refetched`, `None` when that request fails) and stored with their video
        URLs rewritten, as on the first load, and the draft is emptied. A failed create leaves
        everything as it was; a failed re-fetch leaves the list and the draft. */
    method Submit(base: string, created: bool, refetched: Option<seq<StorySlide>>) returns (sent: bool)
      modifies this
      ensures sent <==> old(draft).video.Some?
      ensures sent && created ==> !open
      ensures sent && created && refetched.Some? ==>
                slides == NormalizeStories(base, refetched.value) && draft == EmptyStoryDraft()
      ensures !(sent && created && refetched.Some?) ==> slides == old(slides) && draft == old(draft)
      ensures !(sent && created) ==> open == old(open)
    {
      sent := draft.video.Some?;
      if sent && created {
        open := false;
        if refetched.Some? {
          slides := NormalizeStories(base, refetched.value);
          draft := EmptyStoryDraft();
        }
      }
    }

    /** A delete confirmed by the user and by the server drops the stories with that id and
        keeps the rest in order. */
    method Delete(id: string, confirmed: bool, succeeded: bool)
      modifies this
      ensures confirmed && succeeded ==> slides == WithoutId(old(slides), StoryId, id)
      ensures !(confirmed && succeeded) ==> slides == old(slides)
      ensures open == old(open) && draft == old(draft)
    {
      if confirmed && succeeded {
        slides := WithoutId(slides, StoryId, id);
      }
    }
  }
}

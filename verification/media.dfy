/** Media items (product photos and videos) and the URL normalisation every page applies
    to media paths returned by the API: a path that already starts with "http" is kept,
    any other path is prefixed with the media base URL. Also the two ways the admin
    gallery classifies a picked item as image or video. */
module Media {
  import opened Wrappers
  import opened Strings

  datatype MediaKind = Image | Video

  /** A file chosen in a file input: its name and its MIME type. */
  datatype LocalFile = LocalFile(name: string, mime: string)

  /** `{src, type, alt, file}`: `file` is present only for a local upload not yet sent. */
  datatype MediaItem = MediaItem(src: string, kind: MediaKind, alt: string, file: Option<LocalFile>)

  /** `src.startsWith("http") ? src : base + src`. */
  function Absolutize(base: string, src: string): (r: string)
    ensures StartsWith(src, "http") ==> r == src
    ensures !StartsWith(src, "http") ==> r == base + src
  {
    if StartsWith(src, "http") then src else base + src
  }

  /** With an absolute base URL every normalised path is absolute, and normalising again
      changes nothing. */
  lemma AbsolutizeIdempotent(base: string, src: string)
    requires StartsWith(base, "http")
    ensures StartsWith(Absolutize(base, src), "http")
    ensures Absolutize(base, Absolutize(base, src)) == Absolutize(base, src)
  {
    if !StartsWith(src, "http") {
      StartsWithAppend(base, src, "http");
    }
  }

  /** `{...m, src: Absolutize(base, m.src)}`: only `src` changes. */
  function NormalizeItem(base: string, m: MediaItem): (r: MediaItem)
    ensures r.kind == m.kind && r.alt == m.alt && r.file == m.file
  {
    m.(src := Absolutize(base, m.src))
  }

  /** `media.map(m => NormalizeItem(m))`. */
  function NormalizeAll(base: string, ms: seq<MediaItem>): (r: seq<MediaItem>)
    ensures |r| == |ms|
    ensures forall i :: 0 <= i < |ms| ==> r[i] == NormalizeItem(base, ms[i])
  {
    seq(|ms|, i requires 0 <= i < |ms| => NormalizeItem(base, ms[i]))
  }

  /** Normalising a list twice is the same as normalising it once, when the base URL is absolute. */
  lemma NormalizeAllIdempotent(base: string, ms: seq<MediaItem>)
    requires StartsWith(base, "http")
    ensures NormalizeAll(base, NormalizeAll(base, ms)) == NormalizeAll(base, ms)
  {
    forall i | 0 <= i < |ms| {
      AbsolutizeIdempotent(base, ms[i].src);
    }
  }

  /** A local file is a video iff its MIME type includes "video"; anything else is an image. */
  function KindOfMime(mime: string): MediaKind {
    if Contains(mime, "video") then Video else Image
  }

  /** Every MIME type of the form ".../video..." classifies as a video, and a MIME type too
      short to include "video" classifies as an image. */
  lemma KindOfMimeVideo(before: string, after: string)
    ensures KindOfMime(before + "video" + after) == Video
    ensures |before| < 5 && after == [] ==> KindOfMime(before) == Image
  {
    ContainsInfix(before, "video", after);
    if |before| < 5 {
      ContainsNeedsRoom(before, "video");
    }
  }

  /** The media item built for a chosen local file; `objectUrl` is what
      `URL.createObjectURL(file)` returned for it. */
  function FromLocalFile(f: LocalFile, objectUrl: string): (m: MediaItem)
    ensures m.file == Some(f) && m.src == objectUrl
    ensures m.kind == Video <==> Contains(f.mime, "video")
  {
    MediaItem(objectUrl, KindOfMime(f.mime), f.name, Some(f))
  }

  /** `/\.(mp4|mov|m4v)$/i`: a gallery URL names a video iff it ends in one of the three
      extensions, in any letter case. */
  predicate IsVideoUrl(url: string) {
    var l := Lower(url);
    EndsWith(l, ".mp4") || EndsWith(l, ".mov") || EndsWith(l, ".m4v")
  }

  /** Lower-casing distributes over concatenation. */
  lemma LowerAppend(a: string, b: string)
    ensures Lower(a + b) == Lower(a) + Lower(b)
  {
  }

  /** Whatever precedes it, a path ending in ".mp4", ".MOV", ".M4v", ... names a video, and
      one ending in ".jpg" does not. */
  lemma VideoUrlByExtension(path: string, ext: string)
    requires Lower(ext) == ".mp4" || Lower(ext) == ".mov" || Lower(ext) == ".m4v"
    ensures IsVideoUrl(path + ext)
    ensures !IsVideoUrl(path + ".jpg")
  {
    LowerAppend(path, ext);
    EndsWithPrepend(Lower(path), Lower(ext), Lower(ext));
    LowerAppend(path, ".jpg");
    var l := Lower(path + ".jpg");
    assert l[|l| - 4..] == ".jpg";
  }

  /** `url.split("/").pop()`: what follows the last "/" (the whole string when there is none). */
  function LastSegment(url: string): (r: string)
    ensures '/' !in r && EndsWith(url, r)
    ensures '/' !in url ==> r == url
    decreases |url|
  {
    if url == [] || url[|url| - 1] == '/' then []
    else
      var r := LastSegment(url[..|url| - 1]) + [url[|url| - 1]];
      assert url[..|url| - 1] + [url[|url| - 1]] == url;
      r
  }

  /** A gallery URL picked in the admin gallery: `{src: url, type, alt: last path segment}`. */
  function FromGalleryUrl(url: string): (m: MediaItem)
    ensures m.src == url && m.file == None && m.alt == LastSegment(url)
    ensures m.kind == Video <==> IsVideoUrl(url)
  {
    MediaItem(url, if IsVideoUrl(url) then Video else Image, LastSegment(url), None)
  }
}

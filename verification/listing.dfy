/** What the product listings (the shop, a category page, the new arrivals) share: the
    recursive media normaliser applied to API payloads, and the "start to end of total"
    window shown under a page of results. */
module Listing {
  import opened Wrappers
  import opened Strings
  import opened Media
  import opened Catalog

  /** An API payload as the listing normaliser sees it: a falsy value, one record, or an array
      of payloads. */
  datatype Payload = Falsy | Record(p: Product) | Array(items: seq<Payload>)

  /** `normalizeMediaSrc`: falsy values and records without `media` are returned as they are,
      arrays are mapped element by element, and a record's media get absolute paths. */
  function NormalizePayload(base: string, x: Payload): (r: Payload)
    ensures x.Falsy? <==> r.Falsy?
    ensures x.Array? <==> r.Array?
    ensures x.Array? ==> |r.items| == |x.items|
    ensures x.Record? ==> r.Record? && r.p == x.p.(media := r.p.media)
    ensures x.Record? && x.p.media.None? ==> r == x
    ensures x.Record? && x.p.media.Some? ==> r.p.media == Some(NormalizeAll(base, x.p.media.value))
    decreases x
  {
    match x
    case Falsy => Falsy
    case Array(items) => Array(seq(|items|, i requires 0 <= i < |items| => NormalizePayload(base, items[i])))
    case Record(p) =>
      if p.media.None? then x else Record(p.(media := Some(NormalizeAll(base, p.media.value))))
  }

  /** An array is normalised element by element, in order. */
  lemma NormalizeArrayPointwise(base: string, items: seq<Payload>)
    ensures forall i :: 0 <= i < |items| ==>
              NormalizePayload(base, Array(items)).items[i] == NormalizePayload(base, items[i])
  {
  }

  /** Every media path anywhere in a normalised payload is absolute, when the base URL is. */
  predicate AllAbsolute(x: Payload)
    decreases x
  {
    match x
    case Falsy => true
    case Record(p) => forall m :: m in OrEmpty(p.media) ==> StartsWith(m.src, "http")
    case Array(items) => forall i :: 0 <= i < |items| ==> AllAbsolute(items[i])
  }

  /** With an absolute base URL the normaliser leaves no relative media path, at any depth,
      and normalising its result again changes nothing. */
  lemma {:induction false} NormalizePayloadAbsolute(base: string, x: Payload)
    requires StartsWith(base, "http")
    ensures AllAbsolute(NormalizePayload(base, x))
    ensures NormalizePayload(base, NormalizePayload(base, x)) == NormalizePayload(base, x)
    decreases x
  {
    match x
    case Falsy =>
    case Record(p) =>
      if p.media.Some? {
        NormalizeAllIdempotent(base, p.media.value);
        var ms := NormalizeAll(base, p.media.value);
        forall m | m in ms
          ensures StartsWith(m.src, "http")
        {
          var i :| 0 <= i < |ms| && ms[i] == m;
          AbsolutizeIdempotent(base, p.media.value[i].src);
        }
      }
    case Array(items) =>
      var r := NormalizePayload(base, x);
      forall i | 0 <= i < |items|
        ensures AllAbsolute(r.items[i])
        ensures NormalizePayload(base, r.items[i]) == r.items[i]
      {
        NormalizePayloadAbsolute(base, items[i]);
      }
      assert NormalizePayload(base, r).items == r.items;
  }

  /** `list || []` on a payload. */
  function OrEmptyPayload(x: Payload): (r: Payload)
    ensures x.Falsy? ==> r == Array([])
    ensures !x.Falsy? ==> r == x
  {
    if x.Falsy? then Array([]) else x
  }

  /** The first result shown on page `currentPage` (counting from 1). */
  function WindowStart(currentPage: nat, perPage: nat): int {
    currentPage * perPage + 1
  }

  /** The last result shown on page `currentPage`: the page's last slot, or the total on the
      last page. */
  function WindowEnd(currentPage: nat, perPage: nat, total: nat): int {
    if (currentPage + 1) * perPage <= total then (currentPage + 1) * perPage else total
  }

  /** The window never runs past the total and never spans more than a page; a page that is
      full shows exactly `perPage` results, and the page holding the last result ends on it. */
  lemma WindowBounds(currentPage: nat, perPage: nat, total: nat)
    ensures WindowEnd(currentPage, perPage, total) <= total
    ensures WindowEnd(currentPage, perPage, total) - WindowStart(currentPage, perPage) + 1 <= perPage
    ensures (currentPage + 1) * perPage <= total ==>
              WindowEnd(currentPage, perPage, total) - WindowStart(currentPage, perPage) + 1 == perPage
    ensures currentPage * perPage < total <= (currentPage + 1) * perPage ==>
              WindowEnd(currentPage, perPage, total) == total
              && WindowStart(currentPage, perPage) <= WindowEnd(currentPage, perPage, total)
  {
    assert (currentPage + 1) * perPage == currentPage * perPage + perPage;
  }
}

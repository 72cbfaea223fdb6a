/** The "new arrivals" strip of the home page: the first four products of the new-arrivals
    list, normalised, and a loading state that ends whatever the fetch did. */
module NewArrivals {
  import opened Wrappers
  import opened Listing

  function Min(a: int, b: int): int {
    if a <= b then a else b
  }

  /** `normalizeMediaSrc(products || []).slice(0, 4)`; a result that is not an array has no
      `slice`, so the handler throws (`None`). */
  function FirstFour(base: string, data: Payload): (r: Option<seq<Payload>>)
    ensures r.Some? <==> !data.Record?
    ensures data.Falsy? ==> r == Some([])
    ensures data.Array? ==>
              |r.value| == Min(4, |data.items|)
              && r.value == NormalizePayload(base, data).items[..|r.value|]
  {
    var normalized := NormalizePayload(base, OrEmptyPayload(data));
    if normalized.Array? then Some(normalized.items[..Min(4, |normalized.items|)]) else None
  }

  /** The strip never shows more than four products, and shows each in the order fetched
      and normalised: entry `i` is the normalised product `i`. */
  lemma FirstFourAreTheFirst(base: string, items: seq<Payload>)
    ensures FirstFour(base, Array(items)).Some?
    ensures |FirstFour(base, Array(items)).value| <= 4
    ensures |items| >= 4 ==> |FirstFour(base, Array(items)).value| == 4
    ensures forall i :: 0 <= i < |FirstFour(base, Array(items)).value| ==>
              FirstFour(base, Array(items)).value[i] == NormalizePayload(base, items[i])
  {
    NormalizeArrayPointwise(base, items);
  }

  /** The strip's state. */
  class Strip {
    var products: seq<Payload>
    var loading: bool

    constructor ()
      ensures products == [] && loading
    {
      products, loading := [], true;
    }

    /** The fetch answered with `data`: the first four normalised products are stored (a
        throw inside the handler is caught and leaves the list as it was); loading ends. */
    method FetchSucceeded(base: string, data: Payload)
      modifies this
      ensures !loading
      ensures FirstFour(base, data).Some? ==> products == FirstFour(base, data).value
      ensures FirstFour(base, data).None? ==> products == old(products)
      ensures |products| <= 4 || products == old(products)
    {
      var shown := FirstFour(base, data);
      if shown.Some? {
        products := shown.value;
      }
      loading := false;
    }

    /** The fetch failed: the list stays, loading ends. */
    method FetchFailed()
      modifies this
      ensures !loading && products == old(products)
    {
      loading := false;
    }
  }
}

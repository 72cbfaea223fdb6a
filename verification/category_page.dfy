/** The category page: the heading made from the route parameter, and the grid listing the
    category's packs and then its products, both fetched and normalised. */
module CategoryPage {
  import opened Wrappers
  import opened Strings
  import opened Listing

  /** `decodeURIComponent(Category).replace(/-/g, " ").trim()`, with the decoding done by the
      caller. */
  function FormattedCategory(decoded: string): (r: string)
    ensures '-' !in r
    ensures r != [] ==> !IsWhitespace(r[0]) && !IsWhitespace(r[|r| - 1])
    ensures |r| <= |decoded|
  {
    var spaced := ReplaceChar(decoded, '-', ' ');
    TrimKeepsCharacters(spaced, '-');
    Trim(spaced)
  }

  /** A heading is already in its final form: formatting it again changes nothing. */
  lemma FormattedCategoryIdempotent(decoded: string)
    ensures FormattedCategory(FormattedCategory(decoded)) == FormattedCategory(decoded)
  {
    var r := FormattedCategory(decoded);
    ReplaceAbsentChar(r, '-', ' ');
    TrimTrimmed(r);
  }

  /** A slug without surrounding spaces reads with a space wherever it has a hyphen, and
      keeps every other character. */
  lemma SlugBecomesWords(decoded: string)
    requires decoded != [] ==> decoded[0] != '-' && decoded[|decoded| - 1] != '-'
    requires decoded != [] ==> !IsWhitespace(decoded[0]) && !IsWhitespace(decoded[|decoded| - 1])
    ensures FormattedCategory(decoded) == ReplaceChar(decoded, '-', ' ')
  {
    TrimTrimmed(ReplaceChar(decoded, '-', ' '));
  }

  /** A tile of the grid: a pack card or a product card. */
  datatype Tile = PackTile(pack: Payload) | ProductTile(product: Payload)

  /** `normalizeMediaSrc(list || [])`. */
  function FetchedList(base: string, data: Payload): (r: Payload)
    ensures data.Falsy? ==> r == Array([])
    ensures !data.Falsy? ==> r == NormalizePayload(base, data)
  {
    NormalizePayload(base, OrEmptyPayload(data))
  }

  /** The grid: every pack, then every product, each in the order fetched. A stored list
      that is not an array has no `map`, so the render throws (`None`). */
  function Tiles(packs: Payload, products: Payload): (r: Option<seq<Tile>>)
    ensures r.Some? <==> packs.Array? && products.Array?
    ensures r.Some? ==> |r.value| == |packs.items| + |products.items|
    ensures r.Some? ==> forall i :: 0 <= i < |packs.items| ==> r.value[i] == PackTile(packs.items[i])
    ensures r.Some? ==> forall i :: 0 <= i < |products.items| ==>
              r.value[|packs.items| + i] == ProductTile(products.items[i])
  {
    if packs.Array? && products.Array? then
      Some(seq(|packs.items|, i requires 0 <= i < |packs.items| => PackTile(packs.items[i]))
           + seq(|products.items|, i requires 0 <= i < |products.items| => ProductTile(products.items[i])))
    else None
  }

  /** No product ever comes before a pack. With lists that were missing from the response the
      grid is empty rather than broken. */
  lemma PacksBeforeProducts(base: string, packData: Payload, productData: Payload)
    requires packData.Falsy? || packData.Array?
    requires productData.Falsy? || productData.Array?
    ensures Tiles(FetchedList(base, packData), FetchedList(base, productData)).Some?
    ensures var t := Tiles(FetchedList(base, packData), FetchedList(base, productData)).value;
            forall i, j :: 0 <= i < j < |t| && t[i].ProductTile? ==> t[j].ProductTile?
    ensures packData.Falsy? && productData.Falsy? ==>
              Tiles(FetchedList(base, packData), FetchedList(base, productData)) == Some([])
  {
    var packs, products := FetchedList(base, packData), FetchedList(base, productData);
    var t := Tiles(packs, products).value;
    forall i, j | 0 <= i < j < |t| && t[i].ProductTile?
      ensures t[j].ProductTile?
    {
      assert t[j] == ProductTile(products.items[j - |packs.items|]);
    }
  }
}

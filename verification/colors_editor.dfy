/** The colour editor of the product form: adding and removing colours, attaching media to one
    colour (local files or an item of the media library) and removing one medium from a
    colour. It edits the product held by the detail page. */
module ColorsEditor {
  import opened Wrappers
  import opened JsValues
  import opened Media
  import opened Catalog
  import opened ProductDetails

  /** `{name: "", value: "", media: []}`: no swatch image and no stock yet. */
  function NewColor(): (c: Color)
    ensures c.media == [] && c.src.None? && c.quantity.Undefined?
  {
    Color("", "", None, Undefined, [])
  }

  /** The colours with `items` appended to the media of colour `idx`: that colour keeps every
      other field, and every other colour is left as it was. */
  function AppendColorMedia(cs: seq<Color>, idx: int, items: seq<MediaItem>): (r: seq<Color>)
    requires 0 <= idx < |cs|
    ensures |r| == |cs|
    ensures forall k :: 0 <= k < |cs| && k != idx ==> r[k] == cs[k]
    ensures r[idx] == cs[idx].(media := cs[idx].media + items)
  {
    UpdateAt(cs, idx, cs[idx].(media := cs[idx].media + items))
  }

  /** The colours with medium `m` of colour `c` filtered out. */
  function RemoveColorMedia(cs: seq<Color>, c: int, m: int): (r: seq<Color>)
    requires 0 <= c < |cs|
    ensures |r| == |cs|
    ensures forall k :: 0 <= k < |cs| && k != c ==> r[k] == cs[k]
    ensures r[c] == cs[c].(media := RemoveAt(cs[c].media, m))
  {
    UpdateAt(cs, c, cs[c].(media := RemoveAt(cs[c].media, m)))
  }

  /** Attaching or removing media never changes any colour's stock, so the stock sent on save
      is unchanged. */
  lemma MediaEditsKeepStock(p: Product, idx: int, items: seq<MediaItem>, m: int)
    requires p.colors.Some? && 0 <= idx < |p.colors.value|
    ensures VariantTotal(p.(colors := Some(AppendColorMedia(p.colors.value, idx, items)))) == VariantTotal(p)
    ensures VariantTotal(p.(colors := Some(RemoveColorMedia(p.colors.value, idx, m)))) == VariantTotal(p)
  {
    assert ColorQuantities(AppendColorMedia(p.colors.value, idx, items)) == ColorQuantities(p.colors.value);
    assert ColorQuantities(RemoveColorMedia(p.colors.value, idx, m)) == ColorQuantities(p.colors.value);
  }

  /** A new colour has no stock, so it adds nothing to the colour total; removing colour `i`
      takes exactly its stock (`Number(quantity) || 0`) off the total. */
  lemma ColorListEditsAndStock(cs: seq<Color>, i: int)
    ensures StockSum(ColorQuantities(cs + [NewColor()])) == StockSum(ColorQuantities(cs))
    ensures 0 <= i < |cs| ==>
              StockSum(ColorQuantities(RemoveAt(cs, i))) == StockSum(ColorQuantities(cs)) - NumberOr0(cs[i].quantity)
  {
    assert ColorQuantities(cs + [NewColor()]) == ColorQuantities(cs) + [Undefined];
    StockSumPushNaN(ColorQuantities(cs), Undefined);
    if 0 <= i < |cs| {
      QuantitiesRemoveAt(cs, ColorStock, i);
      StockSumRemoveAt(ColorQuantities(cs), i);
    }
  }

  /** The editor's own state: whether the library modal is open and which colour the next
      picked media goes to. */
  class ColorEditor {
    var open: bool
    var activeColorIndex: Option<int>

    constructor ()
      ensures !open && activeColorIndex.None?
    {
      open, activeColorIndex := false, None;
    }

    /** "Universe gallery" on colour `i`: remember the colour and open the library modal. */
    method OpenLibrary(i: int)
      modifies this
      ensures open && activeColorIndex == Some(i)
    {
      activeColorIndex := Some(i);
      open := true;
    }

    /** "Local archive" on colour `i`: remember the colour; the browser's file dialog follows. */
    method OpenFilePicker(i: int)
      modifies this
      ensures activeColorIndex == Some(i) && open == old(open)
    {
      activeColorIndex := Some(i);
    }

    /** `handleAddColor`: a new empty colour after the existing ones (an absent list counts as
        empty); the selections are untouched. */
    method AddColor(page: ProductView)
      modifies page
      ensures page.product == old(page.product).(colors := Some(OrEmpty(old(page.product.colors)) + [NewColor()]))
      ensures |page.product.colors.value| == |OrEmpty(old(page.product.colors))| + 1
      ensures page.selectedColor == old(page.selectedColor) && page.selectedSize == old(page.selectedSize)
      ensures page.selectedMedia == old(page.selectedMedia)
    {
      page.product := page.product.(colors := Some(OrEmpty(page.product.colors) + [NewColor()]));
    }

    /** `handleRemoveColor(i)`: exactly colour `i` goes, the others keep their order. */
    method RemoveColor(page: ProductView, i: int)
      requires page.product.colors.Some?
      modifies page
      ensures page.product == old(page.product).(colors := Some(RemoveAt(old(page.product.colors.value), i)))
      ensures 0 <= i < |old(page.product.colors.value)| ==>
                page.product.colors.value == old(page.product.colors.value)[..i] + old(page.product.colors.value)[i + 1..]
      ensures page.selectedColor == old(page.selectedColor) && page.selectedSize == old(page.selectedSize)
      ensures page.selectedMedia == old(page.selectedMedia)
    {
      RemoveAtSpec(page.product.colors.value, i);
      page.product := page.product.(colors := Some(RemoveAt(page.product.colors.value, i)));
    }

    /** Local files chosen for the active colour: one media item per file, in the order chosen,
        appended to that colour's media, and the modal closes. An empty choice changes nothing,
        the modal state included. `urls[k]` is the object URL created for `files[k]`. */
    method SelectFiles(page: ProductView, files: seq<LocalFile>, urls: seq<string>)
      requires |urls| == |files|
      requires page.product.colors.Some? && activeColorIndex.Some?
      requires 0 <= activeColorIndex.value < |page.product.colors.value|
      modifies this, page
      ensures activeColorIndex == old(activeColorIndex)
      ensures files == [] ==> open == old(open) && page.product == old(page.product)
      ensures files != [] ==> !open
      ensures files != [] ==>
                page.product == old(page.product).(colors := Some(AppendColorMedia(old(page.product.colors.value),
                  activeColorIndex.value, LocalItems(files, urls))))
      ensures page.selectedColor == old(page.selectedColor) && page.selectedSize == old(page.selectedSize)
      ensures page.selectedMedia == old(page.selectedMedia)
    {
      if files != [] {
        var items := LocalItems(files, urls);
        page.product := page.product.(colors := Some(AppendColorMedia(page.product.colors.value, activeColorIndex.value, items)));
        open := false;
      }
    }

    /** An item of the media library chosen for the active colour: exactly that item is
        appended to that colour's media, and the modal closes. */
    method SelectLibraryItem(page: ProductView, m: MediaItem)
      requires page.product.colors.Some? && activeColorIndex.Some?
      requires 0 <= activeColorIndex.value < |page.product.colors.value|
      modifies this, page
      ensures !open && activeColorIndex == old(activeColorIndex)
      ensures page.product == old(page.product).(colors := Some(AppendColorMedia(old(page.product.colors.value),
                activeColorIndex.value, [m])))
      ensures page.selectedColor == old(page.selectedColor) && page.selectedSize == old(page.selectedSize)
      ensures page.selectedMedia == old(page.selectedMedia)
    {
      page.product := page.product.(colors := Some(AppendColorMedia(page.product.colors.value, activeColorIndex.value, [m])));
      open := false;
    }

    /** `handleRemoveMedia(c, m)`: exactly medium `m` of colour `c` goes; other colours and
        that colour's other fields are untouched. */
    method RemoveMedia(page: ProductView, c: int, m: int)
      requires page.product.colors.Some? && 0 <= c < |page.product.colors.value|
      modifies page
      ensures page.product == old(page.product).(colors := Some(RemoveColorMedia(old(page.product.colors.value), c, m)))
      ensures 0 <= m < |old(page.product.colors.value)[c].media| ==>
                |page.product.colors.value[c].media| == |old(page.product.colors.value)[c].media| - 1
      ensures page.selectedColor == old(page.selectedColor) && page.selectedSize == old(page.selectedSize)
      ensures page.selectedMedia == old(page.selectedMedia)
    {
      RemoveAtSpec(page.product.colors.value[c].media, m);
      page.product := page.product.(colors := Some(RemoveColorMedia(page.product.colors.value, c, m)));
    }
  }

  /** `files.map(file => ({src: URL.createObjectURL(file), ...}))`, with the object URLs given. */
  function LocalItems(files: seq<LocalFile>, urls: seq<string>): (r: seq<MediaItem>)
    requires |urls| == |files|
    ensures |r| == |files|
    ensures forall k :: 0 <= k < |files| ==> r[k] == FromLocalFile(files[k], urls[k])
  {
    seq(|files|, k requires 0 <= k < |files| => FromLocalFile(files[k], urls[k]))
  }
}

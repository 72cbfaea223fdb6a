/** The size editor of the product form: adding and removing sizes and routing each row's
    inputs to the detail page's generic list edit. It edits the product held by the page. */
module SizesEditor {
  import opened Wrappers
  import opened JsValues
  import opened Catalog
  import opened ProductDetails

  /** `{name: "", price: ""}`: the price is the empty input text and there is no stock field. */
  function NewSize(): (s: Size)
    ensures s.quantity.Undefined? && s.price == Text("")
  {
    Size("", Text(""), Undefined)
  }

  /** A size just added does not decide availability: selecting it gives the same answer as
      selecting no size, and its button is enabled. */
  lemma NewSizeDoesNotDecide(p: Product, c: Option<Color>)
    ensures IsAvailable(p, Some(NewSize()), c) == IsAvailable(p, None, c)
    ensures SizeButtonEnabled(NewSize())
  {
  }

  /** A new size adds nothing to the size total; removing size `i` takes exactly its stock off. */
  lemma SizeListEditsAndStock(ss: seq<Size>, i: int)
    ensures StockSum(SizeQuantities(ss + [NewSize()])) == StockSum(SizeQuantities(ss))
    ensures 0 <= i < |ss| ==>
              StockSum(SizeQuantities(RemoveAt(ss, i))) == StockSum(SizeQuantities(ss)) - NumberOr0(ss[i].quantity)
  {
    assert SizeQuantities(ss + [NewSize()]) == SizeQuantities(ss) + [Undefined];
    StockSumPushNaN(SizeQuantities(ss), Undefined);
    if 0 <= i < |ss| {
      QuantitiesRemoveAt(ss, SizeStock, i);
      StockSumRemoveAt(SizeQuantities(ss), i);
    }
  }

  /** `handleAddSize`: one new size after the existing ones (an absent list counts as empty). */
  method AddSize(page: ProductView)
    modifies page
    ensures page.product == old(page.product).(sizes := Some(OrEmpty(old(page.product.sizes)) + [NewSize()]))
    ensures |page.product.sizes.value| == |OrEmpty(old(page.product.sizes))| + 1
    ensures page.selectedColor == old(page.selectedColor) && page.selectedSize == old(page.selectedSize)
    ensures page.selectedMedia == old(page.selectedMedia)
  {
    page.product := page.product.(sizes := Some(OrEmpty(page.product.sizes) + [NewSize()]));
  }

  /** `handleRemoveSize(i)`: exactly size `i` goes and the others keep their order. */
  method RemoveSize(page: ProductView, i: int)
    requires page.product.sizes.Some?
    modifies page
    ensures page.product == old(page.product).(sizes := Some(RemoveAt(old(page.product.sizes.value), i)))
    ensures 0 <= i < |old(page.product.sizes.value)| ==>
              page.product.sizes.value == old(page.product.sizes.value)[..i] + old(page.product.sizes.value)[i + 1..]
              && |page.product.sizes.value| == |old(page.product.sizes.value)| - 1
    ensures page.selectedColor == old(page.selectedColor) && page.selectedSize == old(page.selectedSize)
    ensures page.selectedMedia == old(page.selectedMedia)
  {
    RemoveAtSpec(page.product.sizes.value, i);
    page.product := page.product.(sizes := Some(RemoveAt(page.product.sizes.value, i)));
  }

  /** An input of row `i` (name, price or stock) edits exactly that field of size `i`. */
  method EditRow(page: ProductView, i: int, key: SizeKey, value: string)
    requires page.product.sizes.Some? && 0 <= i < |page.product.sizes.value|
    modifies page
    ensures page.product == old(page.product).(sizes := page.product.sizes) && page.product.sizes.Some?
    ensures |page.product.sizes.value| == |old(page.product.sizes.value)|
    ensures forall k :: 0 <= k < |page.product.sizes.value| && k != i ==>
              page.product.sizes.value[k] == old(page.product.sizes.value)[k]
    ensures page.product.sizes.value[i] == SetSizeField(old(page.product.sizes.value)[i], key, value)
    ensures page.selectedColor == old(page.selectedColor) && page.selectedSize == old(page.selectedSize)
    ensures page.selectedMedia == old(page.selectedMedia)
  {
    page.ChangeSize(i, key, value);
  }
}

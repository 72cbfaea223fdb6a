/** The product detail page: the normalisation applied to a fetched product, the values the
    page derives from its state (the media set on show, whether the selection can be bought,
    the promotion price and the cart line), the stock total sent on save, and the page state
    itself with the handlers that move it. */
module ProductDetails {
  import opened Wrappers
  import opened Strings
  import opened JsValues
  import opened Media
  import opened Catalog
  import opened Pricing

  // ---------------------------------------------------------------------------------------
  // Normalisation of a fetched product

  /** A colour's own swatch `src` is prefixed only when it is present, non-empty and relative. */
  function NormalizeSwatch(base: string, src: Option<string>): (r: Option<string>)
    ensures src.None? ==> r.None?
    ensures src.Some? ==> r.Some? && EndsWith(r.value, src.value)
    ensures src.Some? && StartsWith(src.value, "http") ==> r == src
  {
    if src.Some? && src.value != [] && !StartsWith(src.value, "http") then
      var r := base + src.value;
      assert r[|r| - |src.value|..] == src.value;
      Some(r)
    else src
  }

  /** One colour after normalisation: its swatch and its media are absolutised; its name,
      value and stock are untouched and its media keep their number and order. */
  function NormalizeColor(base: string, c: Color): (r: Color)
    ensures r.name == c.name && r.value == c.value && r.quantity == c.quantity
    ensures r.src == NormalizeSwatch(base, c.src)
    ensures |r.media| == |c.media|
    ensures forall i :: 0 <= i < |c.media| ==> r.media[i] == NormalizeItem(base, c.media[i])
  {
    c.(src := NormalizeSwatch(base, c.src), media := NormalizeAll(base, c.media))
  }

  /** A fetched product as the page stores it: `media` and `colors` become present lists (an
      absent list becomes empty) whose items keep their order and number and are normalised
      one by one; every other field, `sizes` included, is left as it came. */
  function NormalizeProduct(base: string, p: Product): (r: Product)
    ensures r == p.(media := r.media, colors := r.colors)
    ensures r.media.Some? && |r.media.value| == |OrEmpty(p.media)|
    ensures forall i :: 0 <= i < |OrEmpty(p.media)| ==> r.media.value[i] == NormalizeItem(base, OrEmpty(p.media)[i])
    ensures r.colors.Some? && |r.colors.value| == |OrEmpty(p.colors)|
    ensures forall i :: 0 <= i < |OrEmpty(p.colors)| ==> r.colors.value[i] == NormalizeColor(base, OrEmpty(p.colors)[i])
  {
    var cs := OrEmpty(p.colors);
    p.(media := Some(NormalizeAll(base, OrEmpty(p.media))),
       colors := Some(seq(|cs|, i requires 0 <= i < |cs| => NormalizeColor(base, cs[i]))))
  }

  /** Every media path of the stored product (its own and every colour's) is absolute when the
      base URL is, and so is every non-empty colour swatch. */
  lemma NormalizedPathsAreAbsolute(base: string, p: Product)
    requires StartsWith(base, "http")
    ensures forall m :: m in OrEmpty(NormalizeProduct(base, p).media) ==> StartsWith(m.src, "http")
    ensures forall c :: c in OrEmpty(NormalizeProduct(base, p).colors) ==>
              (forall m :: m in c.media ==> StartsWith(m.src, "http"))
              && (c.src.Some? && c.src.value != [] ==> StartsWith(c.src.value, "http"))
  {
    var r := NormalizeProduct(base, p);
    forall m | m in OrEmpty(r.media)
      ensures StartsWith(m.src, "http")
    {
      var i :| 0 <= i < |r.media.value| && r.media.value[i] == m;
      AbsolutizeIdempotent(base, OrEmpty(p.media)[i].src);
    }
    forall c | c in OrEmpty(r.colors)
      ensures forall m :: m in c.media ==> StartsWith(m.src, "http")
      ensures c.src.Some? && c.src.value != [] ==> StartsWith(c.src.value, "http")
    {
      var i :| 0 <= i < |r.colors.value| && r.colors.value[i] == c;
      NormalizedColorAbsolute(base, OrEmpty(p.colors)[i]);
    }
  }

  /** The same for one colour: its media paths, and its swatch when it has one. */
  lemma NormalizedColorAbsolute(base: string, c: Color)
    requires StartsWith(base, "http")
    ensures forall m :: m in NormalizeColor(base, c).media ==> StartsWith(m.src, "http")
    ensures NormalizeColor(base, c).src.Some? && NormalizeColor(base, c).src.value != [] ==>
              StartsWith(NormalizeColor(base, c).src.value, "http")
  {
    var r := NormalizeColor(base, c);
    forall m | m in r.media
      ensures StartsWith(m.src, "http")
    {
      var j :| 0 <= j < |r.media| && r.media[j] == m;
      AbsolutizeIdempotent(base, c.media[j].src);
    }
    if c.src.Some? && c.src.value != [] && !StartsWith(c.src.value, "http") {
      StartsWithAppend(base, c.src.value, "http");
    }
  }

  /** A colour normalised twice is the colour normalised once, when the base URL is absolute. */
  lemma NormalizeColorIdempotent(base: string, c: Color)
    requires StartsWith(base, "http")
    ensures NormalizeColor(base, NormalizeColor(base, c)) == NormalizeColor(base, c)
  {
    NormalizeAllIdempotent(base, c.media);
    if c.src.Some? && c.src.value != [] && !StartsWith(c.src.value, "http") {
      StartsWithAppend(base, c.src.value, "http");
    }
  }

  /** Normalising an already normalised product changes nothing, when the base URL is absolute:
      a product that goes through the page twice is not prefixed twice. */
  lemma NormalizeProductIdempotent(base: string, p: Product)
    requires StartsWith(base, "http")
    ensures NormalizeProduct(base, NormalizeProduct(base, p)) == NormalizeProduct(base, p)
  {
    var r := NormalizeProduct(base, p);
    var rr := NormalizeProduct(base, r);
    NormalizeAllIdempotent(base, OrEmpty(p.media));
    assert rr.media == r.media;
    forall i | 0 <= i < |r.colors.value|
      ensures rr.colors.value[i] == r.colors.value[i]
    {
      NormalizeColorIdempotent(base, OrEmpty(p.colors)[i]);
    }
    assert rr.colors.value == r.colors.value;
  }

  // ---------------------------------------------------------------------------------------
  // The media set on show

  /** Reference definition of a fallback chain: the first non-empty candidate, or the empty list. */
  function FirstNonEmpty<T(==)>(candidates: seq<seq<T>>): (r: seq<T>)
    ensures r == [] <==> forall i :: 0 <= i < |candidates| ==> candidates[i] == []
    ensures r != [] ==> exists i :: 0 <= i < |candidates| && r == candidates[i]
                          && forall j :: 0 <= j < i ==> candidates[j] == []
    decreases |candidates|
  {
    if candidates == [] then []
    else if candidates[0] != [] then candidates[0]
    else
      var r := FirstNonEmpty(candidates[1..]);
      assert forall i :: 1 <= i < |candidates| ==> candidates[i] == candidates[1..][i - 1];
      if r != [] then
        var k :| 0 <= k < |candidates[1..]| && r == candidates[1..][k]
                 && forall j :: 0 <= j < k ==> candidates[1..][j] == [];
        assert r == candidates[k + 1] && forall j :: 0 <= j < k + 1 ==> candidates[j] == [];
        r
      else r
  }

  /** The media of the selected colour, if a colour is selected. */
  function SelectedColorMedia(selected: Option<Color>): seq<MediaItem> {
    if selected.Some? then selected.value.media else []
  }

  /** The media of the product's first colour, if it has one. */
  function FirstColorMedia(p: Product): seq<MediaItem> {
    if p.colors.Some? && |p.colors.value| > 0 then p.colors.value[0].media else []
  }

  /** `allMedia`: the selected colour's media when it has any, otherwise the first colour's
      media when it has any, otherwise the product's own media (none when absent). */
  function AllMedia(p: Product, selected: Option<Color>): seq<MediaItem> {
    if selected.Some? && |selected.value.media| > 0 then selected.value.media
    else if p.colors.Some? && |p.colors.value| > 0 && |p.colors.value[0].media| > 0 then p.colors.value[0].media
    else OrEmpty(p.media)
  }

  /** The media on show is the first non-empty list of the priority chain
      selected colour, first colour, product; a later colour is never consulted. */
  lemma AllMediaIsFallbackChain(p: Product, selected: Option<Color>)
    ensures AllMedia(p, selected) == FirstNonEmpty([SelectedColorMedia(selected), FirstColorMedia(p), OrEmpty(p.media)])
  {
    var cs := [SelectedColorMedia(selected), FirstColorMedia(p), OrEmpty(p.media)];
    if cs[0] == [] && cs[1] == [] && cs[2] != [] {
      assert FirstNonEmpty(cs) == FirstNonEmpty(cs[1..]) == FirstNonEmpty(cs[2..]);
    }
  }

  /** Nothing is on show exactly when the selected colour, the first colour and the product
      all lack media; and a colour other than the selected or the first one, whose media
      differ from theirs and from the product's, is never what is shown. */
  lemma AllMediaEmptyIff(p: Product, selected: Option<Color>)
    ensures AllMedia(p, selected) == [] <==>
      SelectedColorMedia(selected) == [] && FirstColorMedia(p) == [] && OrEmpty(p.media) == []
    ensures forall c :: c in OrEmpty(p.colors) && c.media != SelectedColorMedia(selected)
                        && c.media != FirstColorMedia(p) && c.media != OrEmpty(p.media)
                        ==> AllMedia(p, selected) != c.media
  {
    var cs := [SelectedColorMedia(selected), FirstColorMedia(p), OrEmpty(p.media)];
    AllMediaIsFallbackChain(p, selected);
    assert AllMedia(p, selected) == [] <==> forall i :: 0 <= i < |cs| ==> cs[i] == [];
  }

  // ---------------------------------------------------------------------------------------
  // Availability

  /** `isAvailable`: a selected size whose `quantity` is defined decides; otherwise, when the
      product has no sizes, a selected colour whose `quantity` is defined decides; otherwise
      the product's `Quantity || 0` does. A quantity decides by `Number(quantity) > 0`. */
  predicate IsAvailable(p: Product, size: Option<Size>, color: Option<Color>)
    ensures IsAvailable(p, size, color) ==>
              (size.Some? && IsPositive(size.value.quantity)) || (color.Some? && IsPositive(color.value.quantity))
              || IsPositive(p.quantity)
    ensures size.Some? && IsPositive(size.value.quantity) ==> IsAvailable(p, size, color)
  {
    if size.Some? && !size.value.quantity.Undefined? then IsPositive(size.value.quantity)
    else if (p.sizes.None? || |p.sizes.value| == 0) && color.Some? && !color.value.quantity.Undefined? then
      IsPositive(color.value.quantity)
    else IsPositive(if Truthy(p.quantity) then p.quantity else Num(0.0))
  }

  /** A falsy field is never a positive number (`""` reads as 0). */
  lemma FalsyIsNotPositive(v: JsValue)
    requires !Truthy(v)
    ensures !IsPositive(v)
  {
    if v.Text? {
      assert Trim(v.s) == [];
    }
  }

  /** A selected size with a defined stock decides alone: neither the product, nor its other
      lists, nor the selected colour can change the answer. */
  lemma SizeDecidesAlone(p: Product, q: Product, s: Size, c: Option<Color>, d: Option<Color>)
    requires !s.quantity.Undefined?
    ensures IsAvailable(p, Some(s), c) == IsAvailable(q, Some(s), d) == IsPositive(s.quantity)
  {
  }

  /** When the product has sizes, the colour never decides; without a deciding size the global
      stock does, and a missing global stock means not available. */
  lemma ColorIgnoredWithSizes(p: Product, size: Option<Size>, c: Option<Color>)
    requires p.sizes.Some? && |p.sizes.value| > 0
    requires size.None? || size.value.quantity.Undefined?
    ensures IsAvailable(p, size, c) == IsPositive(p.quantity)
    ensures p.quantity.Undefined? ==> !IsAvailable(p, size, c)
  {
    if !Truthy(p.quantity) {
      FalsyIsNotPositive(p.quantity);
      FalsyIsNotPositive(Num(0.0));
    }
  }

  /** The global fallback `Number(Quantity || 0) > 0` is the plain test `Number(Quantity) > 0`:
      whenever neither size nor colour decides, availability is positivity of `Quantity`. */
  lemma GlobalStockFallback(p: Product, size: Option<Size>, color: Option<Color>)
    requires size.None? || size.value.quantity.Undefined?
    requires color.None? || color.value.quantity.Undefined?
    ensures IsAvailable(p, size, color) <==> IsPositive(p.quantity)
  {
    if !Truthy(p.quantity) {
      FalsyIsNotPositive(p.quantity);
      FalsyIsNotPositive(Num(0.0));
    }
  }

  /** `isSizeAvailable`: a size button is enabled unless its stock is defined and not positive. */
  predicate SizeButtonEnabled(s: Size) {
    s.quantity.Undefined? || IsPositive(s.quantity)
  }

  /** `isColorAvailable`: a swatch is shown as available unless its stock is defined and not positive. */
  predicate ColorSwatchAvailable(c: Color) {
    c.quantity.Undefined? || IsPositive(c.quantity)
  }

  /** For a size with a defined stock, choosing it makes the product buyable exactly when its
      button is enabled; the same holds for a colour of a product without sizes. */
  lemma ButtonsAgreeWithAvailability(p: Product, s: Size, c: Color)
    ensures !s.quantity.Undefined? ==> (IsAvailable(p, Some(s), Some(c)) <==> SizeButtonEnabled(s))
    ensures (p.sizes.None? || p.sizes.value == []) && !c.quantity.Undefined? ==>
              (IsAvailable(p, None, Some(c)) <==> ColorSwatchAvailable(c))
  {
  }

  /** A stock typed into an editor row is stored as the input's text. Typing back the count a
      number input shows for `n` gives the same availability as the number `n` itself. */
  lemma StockTextRoundTrip(n: nat)
    ensures IsPositive(Text(NatToString(n))) <==> IsPositive(Num(n as real))
    ensures IsPositive(Text(NatToString(n))) <==> n > 0
  {
    NumberOfNatText(n);
  }

  // ---------------------------------------------------------------------------------------
  // Prices and the cart line

  /** `product.promotion || 0`. */
  function PromotionValue(p: Product): (r: JsValue)
    ensures Truthy(p.promotion) ==> r == p.promotion
  {
    if Truthy(p.promotion) then p.promotion else Num(0.0)
  }

  /** `promotion > 0` holds exactly when the record's promotion is a positive number. */
  lemma PromotionActiveIff(p: Product)
    ensures IsPositive(PromotionValue(p)) <==> IsPositive(p.promotion)
    ensures IsPositive(p.promotion) ==> NumberOr0(PromotionValue(p)) == Promotion(p) > 0.0
  {
    if !Truthy(p.promotion) {
      FalsyIsNotPositive(p.promotion);
      FalsyIsNotPositive(Num(0.0));
    }
  }

  /** `discountedPrice`: NaN when the price or the promotion is not a number. */
  function DiscountedPrice(p: Product): (r: JsValue)
    ensures r.Num? <==> ToNumber(p.price).Finite? && ToNumber(PromotionValue(p)).Finite?
  {
    match (ToNumber(p.price), ToNumber(PromotionValue(p)))
    case (Finite(x), Finite(y)) => Num(Discounted(x, y))
    case _ => NaN
  }

  /** `savings`: the original price minus the discounted one, to the cent. */
  function SavingsAmount(p: Product): (r: JsValue)
    ensures r.Num? <==> DiscountedPrice(p).Num?
  {
    match (ToNumber(p.price), DiscountedPrice(p))
    case (Finite(x), Num(d)) => Num(Round2(x - d))
    case _ => NaN
  }

  /** `finalPrice`: the discounted price under a promotion, the record's price otherwise. */
  function CartPrice(p: Product): JsValue {
    if IsPositive(PromotionValue(p)) then DiscountedPrice(p) else p.price
  }

  /** For a product whose price is a number, the cart price is the shared promotion rule
      `FinalPrice` applied to the price and `promotion || 0`; for a price between 0 and any
      promotion up to 100% it is never above the rounded price, and nothing is saved
      without a promotion. */
  lemma CartPriceIsFinalPrice(p: Product, x: real)
    requires p.price == Num(x)
    ensures CartPrice(p) == Num(FinalPrice(x, Promotion(p)))
    ensures 0.0 <= x && Promotion(p) <= 100.0 && IsPositive(p.promotion) ==>
              0.0 <= FinalPrice(x, Promotion(p)) <= Round2(x)
  {
    PromotionActiveIff(p);
    if IsPositive(p.promotion) {
      var y := Promotion(p);
      assert ToNumber(PromotionValue(p)) == Finite(y);
      assert DiscountedPrice(p) == Num(Discounted(x, y));
      if 0.0 <= x && y <= 100.0 {
        DiscountBounds(x, y);
      }
    }
  }

  /** Without a promotion nothing is saved: the savings of a numeric price are 0. */
  lemma NoPromotionSavesNothing(p: Product, x: real)
    requires p.price == Num(x) && !Truthy(p.promotion)
    ensures SavingsAmount(p) == Num(0.0)
  {
    assert PromotionValue(p) == Num(0.0);
    assert DiscountedPrice(p) == Num(Discounted(x, 0.0));
    NoPromotionNoSavings(x);
  }

  /** The line `addItem` puts in the cart. */
  datatype CartLine = CartLine(
    productId: string, name: string, price: JsValue, image: Option<string>,
    selectedSize: Option<string>, selectedSizePrice: Option<JsValue>, selectedColor: Option<string>,
    colors: Option<seq<Color>>, sizes: Option<seq<Size>>)

  /** The cart line for the current selection. The price is `CartPrice(p)` whatever size is
      selected: a size's own price is only carried along as `selectedSizePrice`. */
  function CartLineOf(p: Product, size: Option<Size>, color: Option<Color>, media: Option<MediaItem>): (r: CartLine)
    ensures r.price == CartPrice(p)
    ensures r.selectedSize.Some? <==> size.Some?
    ensures r.selectedSizePrice.Some? <==> size.Some? && !size.value.price.Undefined?
    ensures r.selectedSizePrice.Some? ==> r.selectedSizePrice.value == size.value.price
    ensures r.colors == p.colors && r.sizes == p.sizes
  {
    CartLine(p.id, p.title, CartPrice(p), if media.Some? then Some(media.value.src) else None,
      if size.Some? then Some(size.value.name) else None,
      if size.Some? && !size.value.price.Undefined? then Some(size.value.price) else None,
      if color.Some? then Some(color.value.name) else None,
      p.colors, p.sizes)
  }

  // ---------------------------------------------------------------------------------------
  // Stock aggregation on save

  /** No stock in `qs` reads as a negative number. */
  predicate NoNegativeStock(qs: seq<JsValue>) {
    forall i :: 0 <= i < |qs| ==> NumberOr0(qs[i]) >= 0.0
  }

  /** Some stock in `qs` reads as a positive number. */
  predicate SomePositiveStock(qs: seq<JsValue>) {
    exists i :: 0 <= i < |qs| && NumberOr0(qs[i]) > 0.0
  }

  /** `qs.reduce((acc, q) => acc + (Number(q) || 0), 0)`. */
  function StockSum(qs: seq<JsValue>): (r: real)
    ensures NoNegativeStock(qs) ==> r >= 0.0
    ensures NoNegativeStock(qs) && SomePositiveStock(qs) ==> r > 0.0
    decreases |qs|
  {
    if qs == [] then 0.0
    else
      var init, last := qs[..|qs| - 1], qs[|qs| - 1];
      assert NoNegativeStock(qs) ==> NoNegativeStock(init) && NumberOr0(last) >= 0.0 by {
        if NoNegativeStock(qs) {
          forall i | 0 <= i < |init| ensures NumberOr0(init[i]) >= 0.0 {
            assert init[i] == qs[i];
          }
        }
      }
      assert SomePositiveStock(qs) ==> SomePositiveStock(init) || NumberOr0(last) > 0.0 by {
        if SomePositiveStock(qs) {
          var i :| 0 <= i < |qs| && NumberOr0(qs[i]) > 0.0;
          if i < |init| {
            assert init[i] == qs[i];
          }
        }
      }
      StockSum(init) + NumberOr0(last)
  }

  lemma {:induction false} StockSumAppend(a: seq<JsValue>, b: seq<JsValue>)
    ensures StockSum(a + b) == StockSum(a) + StockSum(b)
    decreases |b|
  {
    if b == [] {
      assert a + b == a;
    } else {
      StockSumAppend(a, b[..|b| - 1]);
      AppendDropLast(a, b);
    }
  }

  /** A one-element list sums to that element's `Number(q) || 0`. */
  lemma StockSumSingle(q: JsValue)
    ensures StockSum([q]) == NumberOr0(q)
  {
    assert [q][..0] == [];
  }

  /** Dropping one quantity from the list takes exactly its contribution off the sum; in
      particular a quantity that is not a number contributes nothing. */
  lemma StockSumRemoveAt(qs: seq<JsValue>, i: int)
    requires 0 <= i < |qs|
    ensures StockSum(RemoveAt(qs, i)) == StockSum(qs) - NumberOr0(qs[i])
    ensures ToNumber(qs[i]).NotANumber? ==> StockSum(RemoveAt(qs, i)) == StockSum(qs)
  {
    var pre, q, post := qs[..i], qs[i], qs[i + 1..];
    RemoveAtSpec(qs, i);
    SplitAt(qs, i);
    StockSumSplit(pre, q, post);
  }

  /** One quantity in the middle of a list contributes its `Number(q) || 0`. */
  lemma StockSumSplit(pre: seq<JsValue>, q: JsValue, post: seq<JsValue>)
    ensures StockSum((pre + [q]) + post) == StockSum(pre + post) + NumberOr0(q)
  {
    StockSumAppend(pre + [q], post);
    StockSumAppend(pre, [q]);
    StockSumSingle(q);
    StockSumAppend(pre, post);
  }

  /** A quantity that is not a number adds nothing at the end of the list. */
  lemma StockSumPushNaN(qs: seq<JsValue>, q: JsValue)
    requires ToNumber(q).NotANumber?
    ensures StockSum(qs + [q]) == StockSum(qs)
  {
    assert (qs + [q])[..|qs|] == qs;
  }

  /** The stocks the save handlers add up, one per entry and in order: `sizes.map(s =>
      s.quantity)` or `colors.map(c => c.quantity)`, read by the `reduce`. */
  function Quantities<T>(xs: seq<T>, quantityOf: T -> JsValue): (r: seq<JsValue>)
    ensures |r| == |xs| && forall i :: 0 <= i < |xs| ==> r[i] == quantityOf(xs[i])
  {
    seq(|xs|, i requires 0 <= i < |xs| => quantityOf(xs[i]))
  }

  function SizeStock(s: Size): JsValue {
    s.quantity
  }

  function ColorStock(c: Color): JsValue {
    c.quantity
  }

  function SizeQuantities(sizes: seq<Size>): seq<JsValue> {
    Quantities(sizes, SizeStock)
  }

  function ColorQuantities(colors: seq<Color>): seq<JsValue> {
    Quantities(colors, ColorStock)
  }

  /** Reading the stocks commutes with removing an entry, so removing a size or a colour
      removes exactly its stock from what is added up. */
  lemma QuantitiesRemoveAt<T>(xs: seq<T>, quantityOf: T -> JsValue, i: int)
    requires 0 <= i < |xs|
    ensures Quantities(RemoveAt(xs, i), quantityOf) == RemoveAt(Quantities(xs, quantityOf), i)
  {
    RemoveAtSpec(xs, i);
    RemoveAtSpec(Quantities(xs, quantityOf), i);
    assert Quantities(RemoveAt(xs, i), quantityOf) == Quantities(xs, quantityOf)[..i] + Quantities(xs, quantityOf)[i + 1..];
  }

  /** `totalVariantQuantity`: the size stocks summed when there are sizes, otherwise the
      colour stocks summed when there are colours, otherwise 0. */
  function VariantTotal(p: Product): real {
    if p.sizes.Some? && |p.sizes.value| > 0 then StockSum(SizeQuantities(p.sizes.value))
    else if p.colors.Some? && |p.colors.value| > 0 then StockSum(ColorQuantities(p.colors.value))
    else 0.0
  }

  /** The `reduce` of the save handlers as a loop, proved to compute `StockSum`. */
  method SumStocks(qs: seq<JsValue>) returns (total: real)
    ensures total == StockSum(qs)
  {
    total := 0.0;
    var i := 0;
    while i < |qs|
      invariant 0 <= i <= |qs|
      invariant total == StockSum(qs[..i])
    {
      assert qs[..i + 1][..i] == qs[..i];
      total := total + NumberOr0(qs[i]);
      i := i + 1;
    }
    assert qs[..i] == qs;
  }

  /** `totalVariantQuantity`, summing the stocks of the list that the product has. */
  method TotalVariantQuantity(p: Product) returns (total: real)
    ensures total == VariantTotal(p)
  {
    if p.sizes.Some? && |p.sizes.value| > 0 {
      total := SumStocks(SizeQuantities(p.sizes.value));
    } else if p.colors.Some? && |p.colors.value| > 0 {
      total := SumStocks(ColorQuantities(p.colors.value));
    } else {
      total := 0.0;
    }
  }

  /** The `Quantity` sent on save: `totalVariantQuantity || product.Quantity || 0`. */
  function SubmittedQuantity(p: Product): JsValue {
    var t := VariantTotal(p);
    if t != 0.0 then Num(t) else if Truthy(p.quantity) then p.quantity else Num(0.0)
  }

  /** Without sizes or colours the record's own stock is sent (0 when it is falsy); with sizes
      whose stocks do not cancel out, their sum is sent and the colours do not matter. */
  lemma SubmittedQuantityCases(p: Product)
    ensures OrEmpty(p.sizes) == [] && OrEmpty(p.colors) == [] ==>
              SubmittedQuantity(p) == (if Truthy(p.quantity) then p.quantity else Num(0.0))
    ensures OrEmpty(p.sizes) != [] && StockSum(SizeQuantities(p.sizes.value)) != 0.0 ==>
              SubmittedQuantity(p) == Num(StockSum(SizeQuantities(p.sizes.value)))
              && forall cs :: SubmittedQuantity(p.(colors := cs)) == SubmittedQuantity(p)
    ensures !Truthy(SubmittedQuantity(p)) ==> SubmittedQuantity(p) == Num(0.0)
  {
  }

  // ---------------------------------------------------------------------------------------
  // The page state

  /** What `handleFileUpload` receives: a media item built by the gallery, or (the legacy path)
      a file-input event carrying a file and the object URL created for it. */
  datatype Upload = Item(m: MediaItem) | FileEvent(f: LocalFile, objectUrl: string)

  function UploadedItem(u: Upload): (m: MediaItem)
    ensures u.FileEvent? ==> m.file == Some(u.f) && m.src == u.objectUrl && m.alt == u.f.name
  {
    match u
    case Item(m) => m
    case FileEvent(f, url) => FromLocalFile(f, url)
  }

  /** `list.map((item, i) => i === idx ? {...item, [key]: value} : item)` on the colours. */
  function EditColors(cs: seq<Color>, idx: int, key: ColorKey, value: string): (r: seq<Color>)
    ensures |r| == |cs|
    ensures forall i :: 0 <= i < |cs| && i != idx ==> r[i] == cs[i]
    ensures 0 <= idx < |cs| ==> r[idx] == SetColorField(cs[idx], key, value)
  {
    seq(|cs|, i requires 0 <= i < |cs| => if i == idx then SetColorField(cs[i], key, value) else cs[i])
  }

  /** The same edit on the sizes. */
  function EditSizes(ss: seq<Size>, idx: int, key: SizeKey, value: string): (r: seq<Size>)
    ensures |r| == |ss|
    ensures forall i :: 0 <= i < |ss| && i != idx ==> r[i] == ss[i]
    ensures 0 <= idx < |ss| ==> r[idx] == SetSizeField(ss[idx], key, value)
  {
    seq(|ss|, i requires 0 <= i < |ss| => if i == idx then SetSizeField(ss[i], key, value) else ss[i])
  }

  /** The selection the fetch handler makes: the first colour's first media, else the
      product's first media. */
  function InitialMedia(p: Product, color: Option<Color>): (r: Option<MediaItem>)
    ensures r.None? <==> SelectedColorMedia(color) == [] && OrEmpty(p.media) == []
  {
    if color.Some? && color.value.media != [] then Some(color.value.media[0]) else First(OrEmpty(p.media))
  }

  /** The detail page's state: the product being shown or edited and the current colour,
      size and media selections. */
  class ProductView {
    var product: Product
    var selectedColor: Option<Color>
    var selectedSize: Option<Size>
    var selectedMedia: Option<MediaItem>

    /** The page's product has its `media` and `colors` lists, as after loading or creating. */
    predicate Loaded()
      reads this
    {
      product.media.Some? && product.colors.Some?
    }

    /** `isAvailable` for the current state. */
    predicate Available()
      reads this
    {
      IsAvailable(product, selectedSize, selectedColor)
    }

    /** `allMedia` for the current state. */
    function ShownMedia(): seq<MediaItem>
      reads this
    {
      AllMedia(product, selectedColor)
    }

    /** The create page starts from the empty record with nothing selected. */
    constructor Create()
      ensures product == EmptyProduct()
      ensures selectedColor.None? && selectedSize.None? && selectedMedia.None?
      ensures Loaded()
    {
      product := EmptyProduct();
      selectedColor, selectedSize, selectedMedia := None, None, None;
    }

    /** The fetch handler: store the normalised product, select its first colour and the first
        media of that colour (or of the product). No size is selected here. */
    constructor Load(base: string, data: Product)
      ensures product == NormalizeProduct(base, data)
      ensures selectedColor == First(product.colors.value)
      ensures selectedMedia == InitialMedia(product, selectedColor)
      ensures selectedSize.None?
      ensures Loaded()
    {
      var p := NormalizeProduct(base, data);
      var c := First(p.colors.value);
      product := p;
      selectedColor := c;
      selectedMedia := InitialMedia(p, c);
      selectedSize := None;
    }

    /** The synchronisation effect: while no media is selected, select the product's first
        media, first colour and first size; with a media selected, nothing changes. */
    method SyncSelections()
      modifies this
      ensures product == old(product)
      ensures old(selectedMedia).Some? ==>
                selectedMedia == old(selectedMedia) && selectedColor == old(selectedColor) && selectedSize == old(selectedSize)
      ensures old(selectedMedia).None? ==>
                selectedMedia == First(OrEmpty(product.media)) && selectedColor == First(OrEmpty(product.colors))
                && selectedSize == First(OrEmpty(product.sizes))
    {
      if selectedMedia.None? {
        selectedMedia := First(OrEmpty(product.media));
        selectedColor := First(OrEmpty(product.colors));
        selectedSize := First(OrEmpty(product.sizes));
      }
    }

    /** A click on colour `i`: it becomes the selected colour and, when it has media, its first
        media becomes the selected media and its media are what the page shows. */
    method ClickColor(i: int)
      requires product.colors.Some? && 0 <= i < |product.colors.value|
      modifies this
      ensures product == old(product) && selectedSize == old(selectedSize)
      ensures selectedColor == Some(product.colors.value[i])
      ensures product.colors.value[i].media != [] ==>
                selectedMedia == Some(product.colors.value[i].media[0]) && ShownMedia() == product.colors.value[i].media
      ensures product.colors.value[i].media == [] ==> selectedMedia == old(selectedMedia)
    {
      var c := product.colors.value[i];
      selectedColor := Some(c);
      if |c.media| > 0 {
        selectedMedia := Some(c.media[0]);
      }
    }

    /** A click on the enabled button of size `i` selects that size and nothing else. A size
        with a defined stock then makes the product buyable. */
    method ClickSize(i: int)
      requires product.sizes.Some? && 0 <= i < |product.sizes.value|
      requires SizeButtonEnabled(product.sizes.value[i])
      modifies this
      ensures product == old(product) && selectedColor == old(selectedColor) && selectedMedia == old(selectedMedia)
      ensures selectedSize == Some(product.sizes.value[i])
      ensures !product.sizes.value[i].quantity.Undefined? ==> Available()
    {
      selectedSize := Some(product.sizes.value[i]);
    }

    /** `handleFileUpload`: the new item goes at the end of the product's media and becomes
        the selected media; nothing else of the product changes. */
    method FileUpload(u: Upload)
      requires Loaded()
      modifies this
      ensures Loaded()
      ensures product == old(product).(media := Some(old(product.media.value) + [UploadedItem(u)]))
      ensures selectedMedia == Some(UploadedItem(u)) && selectedMedia.value == Last(product.media.value)
      ensures selectedColor == old(selectedColor) && selectedSize == old(selectedSize)
    {
      var m := UploadedItem(u);
      product := product.(media := Some(product.media.value + [m]));
      selectedMedia := Some(m);
    }

    /** `deleteMedia(idx)`: exactly the item at `idx` leaves the product's media (nothing does
        for an index out of range) and the selection moves to the new first item, or none. */
    method DeleteMedia(idx: int)
      requires Loaded()
      modifies this
      ensures Loaded()
      ensures product == old(product).(media := product.media)
      ensures 0 <= idx < |old(product.media.value)| ==>
                product.media.value == old(product.media.value)[..idx] + old(product.media.value)[idx + 1..]
      ensures !(0 <= idx < |old(product.media.value)|) ==> product.media == old(product.media)
      ensures selectedMedia == First(product.media.value)
      ensures selectedColor == old(selectedColor) && selectedSize == old(selectedSize)
    {
      var updated := RemoveAt(product.media.value, idx);
      RemoveAtSpec(product.media.value, idx);
      product := product.(media := Some(updated));
      selectedMedia := First(updated);
    }

    /** `handleChangeProduct(e, idx, key, "colors")`: only field `key` of colour `idx` changes;
        the list keeps its length, the other colours, the rest of the product and the
        selections stay as they were. */
    method ChangeColor(idx: int, key: ColorKey, value: string)
      requires product.colors.Some?
      modifies this
      ensures product == old(product).(colors := Some(EditColors(old(product.colors.value), idx, key, value)))
      ensures selectedColor == old(selectedColor) && selectedSize == old(selectedSize) && selectedMedia == old(selectedMedia)
    {
      product := product.(colors := Some(EditColors(product.colors.value, idx, key, value)));
    }

    /** `handleChangeProduct(e, idx, key, "sizes")`: only field `key` of size `idx` changes. */
    method ChangeSize(idx: int, key: SizeKey, value: string)
      requires product.sizes.Some?
      modifies this
      ensures product == old(product).(sizes := Some(EditSizes(old(product.sizes.value), idx, key, value)))
      ensures selectedColor == old(selectedColor) && selectedSize == old(selectedSize) && selectedMedia == old(selectedMedia)
    {
      product := product.(sizes := Some(EditSizes(product.sizes.value, idx, key, value)));
    }

    /** "Add to cart" / "Buy now": both buttons are disabled unless the selection is available;
        when enabled they put the same line in the cart. */
    method Purchase() returns (line: Option<CartLine>)
      ensures line.Some? <==> Available()
      ensures line.Some? ==> line.value == CartLineOf(product, selectedSize, selectedColor, selectedMedia)
                             && line.value.price == CartPrice(product)
    {
      if Available() {
        line := Some(CartLineOf(product, selectedSize, selectedColor, selectedMedia));
      } else {
        line := None;
      }
    }
  }

  /** The last element of a non-empty list. */
  function Last<T>(s: seq<T>): T
    requires s != []
  {
    s[|s| - 1]
  }
}

/** The product card shown in every listing: which pictures it shows, the price line and the
    colour dots. */
module ProductCard {
  import opened Wrappers
  import opened JsValues
  import opened Media
  import opened Catalog
  import opened Pricing
  import opened ProductDetails

  /** `media.filter(m => m.type === "image")`: the pictures, in their order. */
  function Images(ms: seq<MediaItem>): (r: seq<MediaItem>)
    ensures |r| <= |ms|
    ensures forall m :: m in r ==> m in ms && m.kind == Image
    ensures forall m :: m in ms && m.kind == Image ==> m in r
    decreases |ms|
  {
    if ms == [] then []
    else
      assert forall m :: m in ms ==> m == ms[0] || m in ms[1..];
      (if ms[0].kind == Image then [ms[0]] else []) + Images(ms[1..])
  }

  /** Filtering keeps the order: the pictures of two lists one after the other are the
      pictures of the first followed by those of the second. */
  lemma {:induction false} ImagesAppend(a: seq<MediaItem>, b: seq<MediaItem>)
    ensures Images(a + b) == Images(a) + Images(b)
    decreases |a|
  {
    if a == [] {
      assert a + b == b;
    } else {
      assert (a + b)[1..] == a[1..] + b;
      ImagesAppend(a[1..], b);
    }
  }

  /** A list without videos is its own picture list; a list of videos has no picture. */
  lemma {:induction false} ImagesOfPictures(ms: seq<MediaItem>)
    ensures (forall i :: 0 <= i < |ms| ==> ms[i].kind == Image) ==> Images(ms) == ms
    ensures (forall i :: 0 <= i < |ms| ==> ms[i].kind == Video) ==> Images(ms) == []
    decreases |ms|
  {
    if ms != [] {
      ImagesOfPictures(ms[1..]);
    }
  }

  /** The card's pictures: `product.media?.filter(...) || []`. */
  function CardImages(p: Product): seq<MediaItem> {
    Images(OrEmpty(p.media))
  }

  const Placeholder: string := "https://via.placeholder.com/300"

  /** `images[0]?.src || placeholder`: an empty path also falls back to the placeholder. */
  function MainImage(p: Product): (r: string)
    ensures |CardImages(p)| > 0 && CardImages(p)[0].src != [] ==> r == CardImages(p)[0].src
    ensures (|CardImages(p)| == 0 || CardImages(p)[0].src == []) ==> r == Placeholder
    ensures r != []
  {
    var images := CardImages(p);
    if |images| > 0 && images[0].src != [] then images[0].src else Placeholder
  }

  /** `images[1]?.src || imageSrc`. */
  function HoverImage(p: Product): (r: string)
    ensures |CardImages(p)| > 1 && CardImages(p)[1].src != [] ==> r == CardImages(p)[1].src
    ensures (|CardImages(p)| <= 1 || CardImages(p)[1].src == []) ==> r == MainImage(p)
  {
    var images := CardImages(p);
    if |images| > 1 && images[1].src != [] then images[1].src else MainImage(p)
  }

  /** The hover picture is rendered only when there is a second picture. */
  predicate ShowsHover(p: Product) {
    |CardImages(p)| > 1
  }

  /** A card whose only picture is a video shows the placeholder and no hover picture; a card
      with one picture shows it both as the main and as the hover picture, and renders no hover
      layer. */
  lemma ImageFallbacks(p: Product)
    ensures (forall m :: m in OrEmpty(p.media) ==> m.kind == Video) ==>
              MainImage(p) == Placeholder && !ShowsHover(p)
    ensures |CardImages(p)| == 1 ==> HoverImage(p) == MainImage(p) && !ShowsHover(p)
    ensures ShowsHover(p) ==> |OrEmpty(p.media)| >= 2
  {
  }

  /** What the price area of a card shows. */
  datatype PriceLine =
    | Plain(price: JsValue)                                        // only the original price
    | Promo(original: JsValue, discounted: JsValue, badge: JsValue) // struck price, new price, "-N%"
    | NoPrice                                                      // neither branch renders

  /** The card as written: the plain price under `promotion === 0`, the promotion block (with
      the badge) under `promotion > 0`, where `promotion` is `product.promotion || 0` and the
      discounted price is the page's `price - price * promotion / 100`. */
  function PriceLineAsWritten(p: Product): (r: PriceLine)
    ensures r.Plain? <==> !Truthy(p.promotion)
    ensures r.Promo? <==> IsPositive(p.promotion)
    ensures r.Plain? ==> r.price == p.price
    ensures r.Promo? ==> r.original == p.price && r.discounted == DiscountedPrice(p) && r.badge == p.promotion
  {
    PromotionActiveIff(p);
    var promotion := PromotionValue(p);
    if promotion == Num(0.0) then Plain(p.price)
    else if IsPositive(promotion) then Promo(p.price, DiscountedPrice(p), promotion)
    else NoPrice
  }

  /** A negative promotion (the form stores `Number(input)` as typed) leaves a card without
      any price: it is neither `=== 0` nor `> 0`. */
  lemma NegativePromotionHidesPrice(p: Product)
    requires p.promotion == Num(-5.0)
    ensures PriceLineAsWritten(p) == NoPrice
  {
  }

  /** The card's price line: the promotion block exactly when the promotion is a positive
      number, the original price in every other case. */
  function CardPriceLine(p: Product): (r: PriceLine)
    ensures r.Promo? <==> IsPositive(p.promotion)
    ensures r.Plain? <==> !IsPositive(p.promotion)
    ensures r.Plain? ==> r.price == p.price
    ensures r.Promo? ==> r.original == p.price && r.discounted == DiscountedPrice(p) && r.badge == p.promotion
  {
    PromotionActiveIff(p);
    if IsPositive(PromotionValue(p)) then Promo(p.price, DiscountedPrice(p), PromotionValue(p))
    else Plain(p.price)
  }

  /** Every card shows a price; it agrees with the card as written wherever that one shows a
      price, and the price it announces is the one the detail page puts in the cart. */
  lemma CardPriceLineShowsPrice(p: Product)
    ensures !CardPriceLine(p).NoPrice?
    ensures !PriceLineAsWritten(p).NoPrice? ==> CardPriceLine(p) == PriceLineAsWritten(p)
    ensures CardPriceLine(p).Plain? ==> CardPriceLine(p).price == CartPrice(p)
    ensures CardPriceLine(p).Promo? ==> CardPriceLine(p).discounted == CartPrice(p)
  {
    PromotionActiveIff(p);
    if !Truthy(p.promotion) {
      FalsyIsNotPositive(p.promotion);
    }
  }

  /** For a price that is a number and a promotion between 1 and 100 percent, the struck price
      and the new price are both numbers and the new one is at most the rounded original. */
  lemma PromoNeverRaisesPrice(p: Product, x: real)
    requires p.price == Num(x) && 0.0 <= x
    requires IsPositive(p.promotion) && Promotion(p) <= 100.0
    ensures CardPriceLine(p).Promo?
    ensures CardPriceLine(p).discounted.Num? && 0.0 <= CardPriceLine(p).discounted.x <= Round2(x)
  {
    CartPriceIsFinalPrice(p, x);
    CardPriceLineShowsPrice(p);
  }

  /** The colour dots: `colors?.slice(0, 3)` and, past three colours, the "+N" counter. */
  datatype Dots = Dots(shown: seq<Color>, overflow: Option<nat>)

  function ColorDots(p: Product): (r: Dots)
    ensures |r.shown| <= 3 && |r.shown| <= |OrEmpty(p.colors)|
    ensures r.shown == OrEmpty(p.colors)[..|r.shown|]
    ensures r.overflow.Some? <==> |OrEmpty(p.colors)| > 3
  {
    var cs := OrEmpty(p.colors);
    if |cs| > 3 then Dots(cs[..3], Some(|cs| - 3)) else Dots(cs, None)
  }

  /** The dots and the counter account for every colour exactly once: the dots show the first
      colours and the counter the number left. */
  lemma DotsCountEveryColor(p: Product)
    ensures |ColorDots(p).shown| + ColorDots(p).overflow.GetOr(0) == |OrEmpty(p.colors)|
    ensures |OrEmpty(p.colors)| <= 3 ==> ColorDots(p).shown == OrEmpty(p.colors)
    ensures ColorDots(p).overflow.Some? ==> ColorDots(p).overflow.value >= 1
  {
  }
}

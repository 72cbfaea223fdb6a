/** Promotion pricing shared by the product page and the product card:
    discounted = round2(price - price * promotion / 100) and savings = round2(price - discounted),
    in exact arithmetic with `toFixed(2)` read as half-up rounding to cents. */
module Pricing {
  import opened JsValues
  import opened Catalog

  /** Half-up rounding to two decimals. */
  function Round2(x: real): real {
    (x * 100.0 + 0.5).Floor as real / 100.0
  }

  /** Rounding moves a value by at most half a cent, and never by exactly half a cent downwards. */
  lemma Round2Close(x: real)
    ensures x - 0.005 < Round2(x) <= x + 0.005
  {
    var f := (x * 100.0 + 0.5).Floor;
    assert f as real <= x * 100.0 + 0.5 < f as real + 1.0;
  }

  lemma Round2Monotone(x: real, y: real)
    requires x <= y
    ensures Round2(x) <= Round2(y)
  {
    var fx, fy := (x * 100.0 + 0.5).Floor, (y * 100.0 + 0.5).Floor;
    assert fx as real <= x * 100.0 + 0.5;
    assert y * 100.0 + 0.5 < fy as real + 1.0;
    assert fx <= fy;
    assert Round2(x) == fx as real / 100.0 && Round2(y) == fy as real / 100.0;
  }

  /** A whole number of cents is left as it is. */
  lemma Round2Cents(cents: int)
    ensures Round2(cents as real / 100.0) == cents as real / 100.0
  {
    var c := cents as real;
    assert (c / 100.0) * 100.0 + 0.5 == c + 0.5;
    assert (c + 0.5).Floor == cents;
  }

  /** `product.promotion || 0`, in percent. */
  function Promotion(p: Product): real {
    NumberOr0(p.promotion)
  }

  /** `product.Price` as a number. */
  function OriginalPrice(p: Product): real {
    NumberOr0(p.price)
  }

  /** `price - price * promotion / 100`, rounded to cents. */
  function Discounted(price: real, promotion: real): real {
    Round2(price - price * promotion / 100.0)
  }

  /** `price - discounted`, rounded to cents. */
  function Savings(price: real, promotion: real): real {
    Round2(price - Discounted(price, promotion))
  }

  /** For a non-negative price and a promotion between 0 and 100 percent, the discounted
      price lies between 0 and the (rounded) original, and the savings are not negative. */
  lemma DiscountBounds(price: real, promotion: real)
    requires 0.0 <= price && 0.0 <= promotion <= 100.0
    ensures 0.0 <= Discounted(price, promotion) <= Round2(price)
    ensures Savings(price, promotion) >= 0.0
  {
    var exact := price - price * promotion / 100.0;
    assert 0.0 <= exact <= price by {
      assert price * promotion / 100.0 <= price * 100.0 / 100.0;
    }
    Round2Monotone(0.0, exact);
    Round2Monotone(exact, price);
    assert Round2(0.0) == 0.0;
    var d := Discounted(price, promotion);
    Round2Close(price);
    Round2Monotone(-0.005, price - d);
    assert ((-0.005) * 100.0 + 0.5).Floor == 0;
  }

  /** Without a promotion the discounted price is the rounded price and nothing is saved,
      whatever the price's fractions of a cent. */
  lemma NoPromotionNoSavings(price: real)
    ensures Discounted(price, 0.0) == Round2(price)
    ensures Savings(price, 0.0) == 0.0
  {
    var d := Discounted(price, 0.0);
    Round2Close(price);
    assert -0.005 <= price - d < 0.005;
    assert ((price - d) * 100.0 + 0.5).Floor == 0;
  }

  /** The unit price put in the cart: the discounted price when there is a promotion, the
      original price otherwise. It depends on nothing but the product's price and promotion;
      for a price of 0 or more and a promotion of at most 100 % it is never negative and
      never above the price by more than the half cent that rounding may add. */
  function FinalPrice(price: real, promotion: real): (r: real)
    ensures promotion > 0.0 ==> r == Discounted(price, promotion)
    ensures promotion <= 0.0 ==> r == price
    ensures 0.0 <= price && promotion <= 100.0 ==> 0.0 <= r <= price + 0.005
  {
    if promotion > 0.0 then
      Round2Close(price);
      if 0.0 <= price && promotion <= 100.0 then DiscountBounds(price, promotion); Discounted(price, promotion)
      else Discounted(price, promotion)
    else price
  }

  /** With a price in whole cents and no promotion, nothing is discounted and nothing saved. */
  lemma NoPromotionNoChange(cents: int)
    ensures Discounted(cents as real / 100.0, 0.0) == cents as real / 100.0
    ensures Savings(cents as real / 100.0, 0.0) == 0.0
    ensures FinalPrice(cents as real / 100.0, 0.0) == cents as real / 100.0
  {
    Round2Cents(cents);
    NoPromotionNoSavings(cents as real / 100.0);
  }

  /** A 100 TND article at 10% off sells for 90 TND and saves 10 TND. */
  lemma TenPercentOffHundred()
    ensures Discounted(100.0, 10.0) == 90.0
    ensures Savings(100.0, 10.0) == 10.0
    ensures FinalPrice(100.0, 10.0) == 90.0
  {
    Round2Cents(9000);
    Round2Cents(1000);
  }
}

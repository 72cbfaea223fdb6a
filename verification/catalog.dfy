/** The product record as the storefront holds it, and the index-based list edits the
    editors apply to its `colors`, `sizes` and `media` lists. */
module Catalog {
  import opened Wrappers
  import opened JsValues
  import opened Media

  /** A colour variant `{name, value, src?, quantity?, media}`; `value` is the swatch colour. */
  datatype Color = Color(name: string, value: string, src: Option<string>, quantity: JsValue, media: seq<MediaItem>)

  /** A size variant `{name, price?, quantity?}`. */
  datatype Size = Size(name: string, price: JsValue, quantity: JsValue)

  /** A product (or a pack, which has the same shape as far as the listings care).
      `price`, `promotion`, `quantity` and `sold` are the record's `Price`, `promotion`,
      `Quantity` and `sold`; the lists may be absent on records from the API. */
  datatype Product = Product(
    id: string, slug: string, title: string, description: string,
    price: JsValue, promotion: JsValue, quantity: JsValue, sold: JsValue,
    category: string, subCategory: string,
    media: Option<seq<MediaItem>>, colors: Option<seq<Color>>, sizes: Option<seq<Size>>)

  /** The record a "create" page starts from. */
  function EmptyProduct(): (p: Product)
    ensures p.media == Some([]) && p.colors == Some([]) && p.sizes == Some([])
    ensures p.price == Num(0.0) && p.promotion == Num(0.0) && p.quantity == Num(0.0) && p.sold == Num(0.0)
  {
    Product("", "", "", "", Num(0.0), Num(0.0), Num(0.0), Num(0.0), "", "", Some([]), Some([]), Some([]))
  }

  /** `list.filter((_, idx) => idx !== i)`, element by element from the front. */
  function RemoveAt<T>(s: seq<T>, i: int): seq<T>
    decreases |s|
  {
    if s == [] then []
    else if i == 0 then RemoveAt(s[1..], i - 1)
    else [s[0]] + RemoveAt(s[1..], i - 1)
  }

  /** An index outside the list removes nothing. */
  lemma {:induction false} RemoveAtOutside<T>(s: seq<T>, i: int)
    requires !(0 <= i < |s|)
    ensures RemoveAt(s, i) == s
    decreases |s|
  {
    if s != [] {
      RemoveAtOutside(s[1..], i - 1);
      assert s == [s[0]] + s[1..];
    }
  }

  /** An index inside the list removes exactly that element. */
  lemma {:induction false} RemoveAtInside<T>(s: seq<T>, i: int)
    requires 0 <= i < |s|
    ensures RemoveAt(s, i) == s[..i] + s[i + 1..]
    decreases |s|
  {
    var t := s[1..];
    if i == 0 {
      RemoveAtOutside(t, -1);
      assert s[..0] + s[1..] == t;
    } else {
      RemoveAtInside(t, i - 1);
      assert [s[0]] + t[..i - 1] == s[..i];
      assert t[i..] == s[i + 1..];
      assert [s[0]] + (t[..i - 1] + t[i..]) == ([s[0]] + t[..i - 1]) + t[i..];
    }
  }

  /** A list is what comes before index `i`, the element there, and what comes after. */
  lemma SplitAt<T>(s: seq<T>, i: int)
    requires 0 <= i < |s|
    ensures s == (s[..i] + [s[i]]) + s[i + 1..]
  {
    assert s[..i + 1] == s[..i] + [s[i]];
    assert s == s[..i + 1] + s[i + 1..];
  }

  /** Dropping the last element of `a + b` drops the last element of `b`. */
  lemma AppendDropLast<T>(a: seq<T>, b: seq<T>)
    requires b != []
    ensures (a + b)[..|a + b| - 1] == a + b[..|b| - 1]
    ensures (a + b)[|a + b| - 1] == b[|b| - 1]
  {
  }

  /** Filtering out index `i` removes exactly that element and keeps the others in
      order; an index outside the list removes nothing. */
  lemma RemoveAtSpec<T>(s: seq<T>, i: int)
    ensures 0 <= i < |s| ==> RemoveAt(s, i) == s[..i] + s[i + 1..]
    ensures !(0 <= i < |s|) ==> RemoveAt(s, i) == s
  {
    if 0 <= i < |s| {
      RemoveAtInside(s, i);
    } else {
      RemoveAtOutside(s, i);
    }
  }

  /** `list.map((item, idx) => idx === i ? x : item)`. */
  function UpdateAt<T>(s: seq<T>, i: int, x: T): (r: seq<T>)
    ensures |r| == |s|
    ensures forall k :: 0 <= k < |s| && k != i ==> r[k] == s[k]
    ensures 0 <= i < |s| ==> r[i] == x
  {
    seq(|s|, k requires 0 <= k < |s| => if k == i then x else s[k])
  }

  /** The fields an editor row can change on a colour or on a size. */
  datatype ColorKey = ColorName | ColorValue | ColorQuantity
  datatype SizeKey = SizeName | SizePrice | SizeQuantity

  /** `{...c, [key]: value}` with `value` the input's text. */
  function SetColorField(c: Color, key: ColorKey, value: string): (r: Color)
    ensures r.media == c.media && r.src == c.src
    ensures key == ColorName ==> r == c.(name := value)
    ensures key == ColorValue ==> r == c.(value := value)
    ensures key == ColorQuantity ==> r == c.(quantity := Text(value))
  {
    match key
    case ColorName => c.(name := value)
    case ColorValue => c.(value := value)
    case ColorQuantity => c.(quantity := Text(value))
  }

  function SetSizeField(s: Size, key: SizeKey, value: string): (r: Size)
    ensures key == SizeName ==> r == s.(name := value)
    ensures key == SizePrice ==> r == s.(price := Text(value))
    ensures key == SizeQuantity ==> r == s.(quantity := Text(value))
  {
    match key
    case SizeName => s.(name := value)
    case SizePrice => s.(price := Text(value))
    case SizeQuantity => s.(quantity := Text(value))
  }
}

/** The general-information form of the product editor. Each input's change handler returns the
    record with one field replaced by the input's value, coerced as that field requires; the
    category select also clears the subcategory. */
module InfoForm {
  import opened JsValues
  import opened Catalog

  /** The form's inputs. */
  datatype Field = Title | Price | Promotion | Quantity | Sold | Description | Category | SubCategory

  /** Price and stock: an emptied input is stored as `""`, anything else as `Number(input)`. */
  function BlankOrNumber(input: string): (v: JsValue)
    ensures input == [] ==> v == Text([]) && !Truthy(v)
    ensures input != [] ==> v == FromNumber(StringToNumber(input)) && !v.Text?
  {
    if input == [] then Text([]) else FromNumber(StringToNumber(input))
  }

  /** Promotion and sold count: an emptied input is stored as 0, anything else as `Number(input)`. */
  function ZeroOrNumber(input: string): (v: JsValue)
    ensures input == [] ==> v == Num(0.0)
    ensures !v.Text? && !v.Undefined?
  {
    if input == [] then Num(0.0) else FromNumber(StringToNumber(input))
  }

  /** The record after a change of `field` to `input`. */
  function Edit(p: Product, field: Field, input: string): Product {
    match field
    case Title => p.(title := input)
    case Price => p.(price := BlankOrNumber(input))
    case Promotion => p.(promotion := ZeroOrNumber(input))
    case Quantity => p.(quantity := BlankOrNumber(input))
    case Sold => p.(sold := ZeroOrNumber(input))
    case Description => p.(description := input)
    case Category => p.(category := input, subCategory := [])
    case SubCategory => p.(subCategory := input)
  }

  /** What a form field holds: text, or a coerced value. */
  datatype FieldValue = Str(s: string) | Val(v: JsValue)

  /** The value the form shows for `field`. */
  function Get(p: Product, field: Field): FieldValue {
    match field
    case Title => Str(p.title)
    case Price => Val(p.price)
    case Promotion => Val(p.promotion)
    case Quantity => Val(p.quantity)
    case Sold => Val(p.sold)
    case Description => Str(p.description)
    case Category => Str(p.category)
    case SubCategory => Str(p.subCategory)
  }

  /** The value an input's text is stored as in `field`. */
  function Stored(field: Field, input: string): FieldValue {
    match field
    case Price => Val(BlankOrNumber(input))
    case Quantity => Val(BlankOrNumber(input))
    case Promotion => Val(ZeroOrNumber(input))
    case Sold => Val(ZeroOrNumber(input))
    case _ => Str(input)
  }

  /** An edit stores the coerced input in its own field and leaves every other field as it was
      (save the subcategory, which a category change resets); the media, colours and sizes are
      never touched. A second edit of the same field overrides the first. */
  lemma EditLaws(p: Product, field: Field, input: string, other: Field, later: string)
    ensures Get(Edit(p, field, input), field) == Stored(field, input)
    ensures other != field && !(field == Category && other == SubCategory) ==>
              Get(Edit(p, field, input), other) == Get(p, other)
    ensures field == Category ==> Get(Edit(p, field, input), SubCategory) == Str([])
    ensures Edit(p, field, input).media == p.media && Edit(p, field, input).colors == p.colors
    ensures Edit(p, field, input).sizes == p.sizes && Edit(p, field, input).id == p.id
    ensures Edit(Edit(p, field, input), field, later) == Edit(p, field, later)
  {
  }

  /** The two coercions differ only on the empty input, and even there both read as 0 when the
      record is priced or saved (`Number(v) || 0`). */
  lemma CoercionsAgreeOutsideEmpty(input: string)
    ensures input != [] ==> BlankOrNumber(input) == ZeroOrNumber(input)
    ensures NumberOr0(BlankOrNumber(input)) == NumberOr0(ZeroOrNumber(input))
  {
    if input == [] {
      assert StringToNumber([]) == Finite(0.0);
    }
  }

  /** Typing the digits of a count stores that count: the number field holds `n` itself. */
  lemma NumberInputRoundTrip(n: nat)
    ensures BlankOrNumber(NatToString(n)) == Num(n as real)
    ensures ZeroOrNumber(NatToString(n)) == Num(n as real)
  {
    NatToStringDigits(n);
    NumberOfNatText(n);
  }

  /** The subcategory select is disabled while no category is chosen or the subcategories of
      the chosen one are loading. */
  predicate SubcategoryDisabled(category: string, loadingSubs: bool) {
    category == [] || loadingSubs
  }

  /** What the category effect does: with no category it empties the subcategory list without
      a request, otherwise it fetches the subcategories of that category. */
  datatype SubsEffect = ClearSubs | FetchSubs(category: string)

  function OnCategoryChange(category: string): (e: SubsEffect)
    ensures e.ClearSubs? <==> category == []
    ensures e.FetchSubs? ==> e.category == category
  {
    if category == [] then ClearSubs else FetchSubs(category)
  }

  /** Choosing a category always leaves the record without a subcategory; clearing the category
      both disables the subcategory select and empties its list without a request. */
  lemma CategoryChangeClearsSubcategory(p: Product, input: string, loadingSubs: bool)
    ensures Edit(p, Category, input).subCategory == []
    ensures input == [] ==>
              SubcategoryDisabled(Edit(p, Category, input).category, loadingSubs)
              && OnCategoryChange(Edit(p, Category, input).category) == ClearSubs
  {
  }
}

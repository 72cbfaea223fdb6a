/** The scrolling brand strip of the home page: the store's logo and name repeated along an
    endless horizontal scroll. */
module BrandLogo {
  import opened Wrappers

  /** The store settings the strip reads; a field the API leaves out is the empty string. */
  datatype StoreSettings = StoreSettings(logo: string, storeName: string)

  /** One entry of the strip. */
  datatype Brand = Brand(name: string, logo: string)

  const DefaultName: string := "CLIN D\U{2019}OEIL"

  /** The logo: the media base URL followed by the configured logo when there is one, the
      bundled picture otherwise (also while the settings are not loaded). */
  function Logo(base: string, bundled: string, settings: Option<StoreSettings>): (r: string)
    ensures settings.Some? && settings.value.logo != [] ==> r == base + settings.value.logo
    ensures settings.None? || settings.value.logo == [] ==> r == bundled
  {
    if settings.Some? && settings.value.logo != [] then base + settings.value.logo else bundled
  }

  /** The name: the configured store name when it is not empty, the default otherwise. */
  function Name(settings: Option<StoreSettings>): (r: string)
    ensures r != []
    ensures settings.Some? && settings.value.storeName != [] ==> r == settings.value.storeName
    ensures settings.None? || settings.value.storeName == [] ==> r == DefaultName
  {
    if settings.Some? && settings.value.storeName != [] then settings.value.storeName else DefaultName
  }

  /** `Array(10).fill({name, logo})`. */
  function Brands(b: Brand): (r: seq<Brand>)
    ensures |r| == 10
  {
    seq(10, _ => b)
  }

  /** `[...brands, ...brands]`. */
  function ScrollingBrands(base: string, bundled: string, settings: Option<StoreSettings>): seq<Brand> {
    var brands := Brands(Brand(Name(settings), Logo(base, bundled, settings)));
    brands + brands
  }

  /** The strip has 20 entries, all showing the same name and logo, and its second half
      repeats the first, so scrolling it by half its width lands on the same picture. */
  lemma StripIsTwentyCopies(base: string, bundled: string, settings: Option<StoreSettings>)
    ensures |ScrollingBrands(base, bundled, settings)| == 20
    ensures forall i :: 0 <= i < 20 ==>
              ScrollingBrands(base, bundled, settings)[i] == Brand(Name(settings), Logo(base, bundled, settings))
    ensures forall i :: 0 <= i < 10 ==>
              ScrollingBrands(base, bundled, settings)[i] == ScrollingBrands(base, bundled, settings)[i + 10]
  {
  }
}

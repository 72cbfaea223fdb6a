# Storefront logic of the Clin d'Oeil e-commerce client, in Dafny

This project models the deterministic logic inside the React storefront client of the Clin
d'Oeil store. The views and network calls around that logic are not modelled.

- **Product detail page.** It normalises a fetched product's media URLs and picks the media
  set on show by a three-step fallback. It decides whether the current selection can be
  bought by a size, then colour, then global stock cascade. It computes the promotion price
  and the cart line. It sums variant stock when the product is saved. The page state is a
  class with the product and the colour, size and media selections; the click, upload,
  delete and edit handlers are its methods.
- **Product editors.** The colour editor, size editor and general-information form edit the
  product held by the detail page. They add and remove variants, attach and remove media
  under one colour, and coerce form inputs.
- **Media gallery widget.** It orders its slider (the selected item first, then the rest),
  picks the active item and routes a picked file or library item to the parent's callbacks.
- **Listings.** The shop, category and new-arrivals pages share a recursive media-URL
  normaliser and a pagination window. The product card picks images, a price line and
  colour dots. The category page cleans up its title and lists packs before products.
- **Home page.** The banner carousel has an autoplay index, an image requirement and slide
  create/delete. The story strip has a full-screen reel with bounded next/prev and a drag
  threshold, plus video URL rewriting. The header ticker has progress, rotation and pause.
  The brand strip and the category carousel complete the page.

Values the browser or the server supplies are parameters:
- the media base URL;
- the window width;
- the milliseconds elapsed on a timer;
- the object URL created for a file;
- the user's answer to a confirmation;
- whether a request succeeded, and what it returned.

JavaScript's loose values are modelled by `JsValues.JsValue`: `undefined`, a number, `NaN`
or a string. `Number(...)`, truthiness and `> 0` are modelled on it. Prices are exact
reals, and `toFixed(2)` is modelled as half-up rounding to cents (`Pricing.Round2`).

## Model

| member | source | states |
|---|---|---|
| `Media.Absolutize` | src/pages/productDetails.jsx:117 | a path that starts with "http" is kept; any other path gets the media base URL in front |
| `Media.AbsolutizeIdempotent` | src/pages/shop.jsx:51 | with an absolute base URL, a normalised path is absolute and normalising it again changes nothing |
| `Media.NormalizeItem` | src/pages/productDetails.jsx:115-118 | normalising a media item changes only its `src`: type, alt text and file are kept |
| `Media.NormalizeAll` | src/pages/productDetails.jsx:115-118 | a normalised list has the same length, and its item i is item i normalised |
| `Media.NormalizeAllIdempotent` | src/pages/productDetails.jsx:115-118 | normalising an already normalised list changes nothing (absolute base URL) |
| `Media.KindOfMimeVideo` | src/components/product/ProductMediaGallery.jsx:95 | any MIME type containing "video" gives a video; one too short to contain it gives an image (pins down `KindOfMime`) |
| `Media.FromLocalFile` | src/components/product/ProductMediaGallery.jsx:92-97 | the item for a chosen file carries the file and its object URL, and is a video exactly when the MIME type contains "video" |
| `Media.VideoUrlByExtension` | src/components/product/ProductMediaGallery.jsx:391 | a path ending in .mp4, .mov or .m4v, in any letter case, is a video; one ending in .jpg is not (pins down `IsVideoUrl`) |
| `Media.LastSegment` | src/components/product/ProductMediaGallery.jsx:400 | `url.split("/").pop()` has no "/" and ends the URL; it is the whole URL when the URL has no "/" |
| `Media.FromGalleryUrl` | src/components/product/ProductMediaGallery.jsx:396-401 | a library pick has the URL as `src`, no file, its last path segment as alt text, and is a video exactly when the URL's extension says so |
| `Catalog.EmptyProduct` | src/pages/productDetails.jsx:73-85 | the create page's record has empty media, colour and size lists and every number at 0 |
| `Catalog.RemoveAtSpec` | src/pages/productDetails.jsx:313 | filtering out index i removes exactly element i and keeps the rest in order; an index out of range removes nothing (pins down `RemoveAt`) |
| `Catalog.UpdateAt` | src/components/product/ProductColorsEditor.jsx:55-59 | replacing entry i keeps the length and every other entry |
| `Catalog.SetColorField` | src/pages/productDetails.jsx:319-326 | an edit of a colour row changes only the chosen field (the stock becomes the input's text); media and swatch are kept |
| `Catalog.SetSizeField` | src/pages/productDetails.jsx:319-326 | an edit of a size row changes only the chosen field, and stores the input's text |
| `JsValues.DigitsAreDecimal` | src/components/product/ProductInfoForm.jsx:65 | `Number(...)` (`JsValues.StringToNumber`) reads a non-empty run of digits as its decimal value |
| `JsValues.SignedDigits` | src/components/product/ProductInfoForm.jsx:65 | `Number(...)` reads "-" before a run of digits as the negated value and "+" as the value itself |
| `Strings.Trim` | src/pages/catrgory.jsx:36-38 | `trim()` keeps one contiguous piece of the text, drops only whitespace before and after it, and leaves no whitespace at either end |
| `JsValues.NumberOr0` | src/pages/productDetails.jsx:337 | `Number(q) \|\| 0` is positive exactly when `Number(q) > 0`, is 0 for anything that is not a number, and is the number itself otherwise |
| `Pricing.Round2Close` | src/pages/productDetails.jsx:196-199 | rounding to cents moves a value by at most half a cent (with the next two rows, pins down `Round2`) |
| `Pricing.Round2Monotone` | src/pages/productDetails.jsx:196-199 | rounding to cents keeps the order of prices |
| `Pricing.Round2Cents` | src/pages/productDetails.jsx:196-199 | a price in whole cents is not changed by rounding |
| `Pricing.DiscountBounds` | src/pages/productDetails.jsx:196-200 | for a price of 0 or more and a promotion from 0 to 100 %, the discounted price is between 0 and the rounded price, and the savings are not negative (pins down `Discounted` and `Savings`) |
| `Pricing.NoPromotionNoSavings` | src/pages/productDetails.jsx:195-200 | with no promotion the discounted price is the rounded price and nothing is saved |
| `Pricing.FinalPrice` | src/pages/productDetails.jsx:217 | the cart's unit price is the discounted price under a positive promotion and the plain price otherwise; for a price of 0 or more and a promotion up to 100 % it is never negative and never above the price by more than half a cent |
| `Pricing.NoPromotionNoChange` | src/pages/productDetails.jsx:217 | a whole-cent price with no promotion is sold, discounted and saved unchanged |
| `Pricing.TenPercentOffHundred` | src/pages/productDetails.jsx:196-200 | 100 at 10 % off sells for 90 and saves 10 |
| `ProductDetails.NormalizeSwatch` | src/pages/productDetails.jsx:122 | a colour's own `src` stays absent when absent, stays unchanged when absolute, and otherwise ends with the original path |
| `ProductDetails.NormalizeColor` | src/pages/productDetails.jsx:120-127 | a colour keeps its name, value and stock; its swatch is normalised as `NormalizeSwatch` says; its media keep their number and order and are normalised one by one |
| `ProductDetails.NormalizeProduct` | src/pages/productDetails.jsx:112-130 | only `media` and `colors` change; they become present lists of the same length (absent counts as empty), normalised item by item |
| `ProductDetails.NormalizedPathsAreAbsolute` | src/pages/productDetails.jsx:112-130 | with an absolute base URL, every media path of the product and of every colour is absolute, and so is every non-empty swatch |
| `ProductDetails.NormalizedColorAbsolute` | src/pages/productDetails.jsx:120-127 | with an absolute base URL, a normalised colour's media paths and non-empty swatch are absolute |
| `ProductDetails.NormalizeColorIdempotent` | src/pages/productDetails.jsx:120-127 | normalising a colour twice gives the colour normalised once |
| `ProductDetails.NormalizeProductIdempotent` | src/pages/productDetails.jsx:112-130 | normalising a normalised product changes nothing, so no path is prefixed twice |
| `ProductDetails.FirstNonEmpty` | src/pages/productDetails.jsx:177-192 | reference fallback chain: empty exactly when every candidate is empty, otherwise the first non-empty candidate |
| `ProductDetails.IsAvailable` | src/pages/productDetails.jsx:203-214 | the product is never available unless the selected size, the selected colour or the product has a positive stock; a selected size with positive stock always makes it available |
| `ProductDetails.AllMediaIsFallbackChain` | src/pages/productDetails.jsx:177-192 | the media on show is the first non-empty list of: selected colour's media, first colour's media, product media (pins down `AllMedia`) |
| `ProductDetails.AllMediaEmptyIff` | src/pages/productDetails.jsx:177-192 | nothing is shown exactly when all three lists are empty; a later colour's media are never the fallback |
| `ProductDetails.FalsyIsNotPositive` | src/pages/productDetails.jsx:213 | a falsy stock (`undefined`, 0, NaN, "") is never a positive number |
| `ProductDetails.SizeDecidesAlone` | src/pages/productDetails.jsx:205-207 | a selected size with a defined stock decides availability alone, whatever the product and the colour |
| `ProductDetails.ColorIgnoredWithSizes` | src/pages/productDetails.jsx:209-213 | when the product has sizes and no size decides, the global stock decides and the colour is ignored; a missing stock means unavailable |
| `ProductDetails.GlobalStockFallback` | src/pages/productDetails.jsx:203-214 | when neither size nor colour decides, availability is exactly `Number(Quantity) > 0` |
| `ProductDetails.ButtonsAgreeWithAvailability` | src/pages/productDetails.jsx:859-865 | for a size with a defined stock, selecting it makes the product buyable exactly when its button is enabled; likewise for a colour of a product without sizes (pins down `SizeButtonEnabled` and `ColorSwatchAvailable`) |
| `ProductDetails.StockTextRoundTrip` | src/components/product/ProductSizesEditor.jsx:42-45 | a stock typed as the digits of n is available exactly when n > 0, as the number n would be |
| `ProductDetails.PromotionValue` | src/pages/productDetails.jsx:195 | `promotion \|\| 0` keeps a truthy promotion |
| `ProductDetails.PromotionActiveIff` | src/pages/productDetails.jsx:217 | `promotion > 0` holds exactly when the record's promotion is a positive number |
| `ProductDetails.DiscountedPrice` | src/pages/productDetails.jsx:196-199 | the discounted price is a number exactly when the price and the promotion both are |
| `ProductDetails.SavingsAmount` | src/pages/productDetails.jsx:200 | the savings are a number exactly when the discounted price is |
| `ProductDetails.CartPriceIsFinalPrice` | src/pages/productDetails.jsx:216-231 | for a numeric price the cart price is the promotion rule applied to the price, and under a promotion up to 100 % it is between 0 and the rounded price (pins down `CartPrice`) |
| `ProductDetails.NoPromotionSavesNothing` | src/pages/productDetails.jsx:195-200 | without a promotion a numeric price saves 0 |
| `ProductDetails.CartLineOf` | src/pages/productDetails.jsx:220-231 | the cart line's price is the cart price whatever size is chosen; the size's price is only carried along; colours and sizes are copied |
| `ProductDetails.StockSum` | src/pages/productDetails.jsx:337 | a sum of stocks none of which is negative is not negative, and it is positive as soon as one stock is positive |
| `ProductDetails.SumStocks` | src/pages/productDetails.jsx:337-339 | the `reduce` loop accumulates exactly the stock sum of its list |
| `ProductDetails.Quantities` | src/pages/productDetails.jsx:337-339 | the stocks read, one per size or colour, in order |
| `ProductDetails.QuantitiesRemoveAt` | src/components/product/ProductSizesEditor.jsx:10-15 | reading the stocks commutes with removing a size (or colour) by index |
| `ProductDetails.StockSumAppend` | src/pages/productDetails.jsx:337 | the stock sum of two lists joined is the sum of their sums |
| `ProductDetails.StockSumSingle` | src/pages/productDetails.jsx:337 | one stock sums to its `Number(q) \|\| 0` |
| `ProductDetails.StockSumRemoveAt` | src/pages/productDetails.jsx:337 | dropping one entry takes exactly its contribution off the sum; a non-numeric entry contributes nothing |
| `ProductDetails.StockSumPushNaN` | src/pages/productDetails.jsx:337 | a non-numeric stock added at the end leaves the sum |
| `ProductDetails.TotalVariantQuantity` | src/pages/productDetails.jsx:334-340 | the accumulation loop computes the size total when there are sizes, else the colour total when there are colours, else 0 (pins down `VariantTotal`) |
| `ProductDetails.SubmittedQuantityCases` | src/pages/productDetails.jsx:349 | without variants the record's stock (or 0) is sent; with sizes whose total is not 0 that total is sent and colours do not matter; a falsy result is 0 (pins down `SubmittedQuantity`) |
| `ProductDetails.UploadedItem` | src/pages/productDetails.jsx:294-306 | a file-input event becomes an item with that file, its object URL and its name |
| `ProductDetails.EditColors` | src/pages/productDetails.jsx:319-326 | editing colour idx keeps the list length and every other colour, and edits only that field of colour idx |
| `ProductDetails.EditSizes` | src/pages/productDetails.jsx:319-326 | the same for sizes |
| `ProductDetails.InitialMedia` | src/pages/productDetails.jsx:143-149 | the initial media is absent exactly when the first colour and the product both have no media |
| `ProductDetails.ProductView.Create` | src/pages/productDetails.jsx:73-87 | the create page starts from the empty record with nothing selected |
| `ProductDetails.ProductView.Load` | src/pages/productDetails.jsx:135-149 | the fetched product is stored normalised; its first colour and the initial media are selected; no size is |
| `ProductDetails.ProductView.SyncSelections` | src/pages/productDetails.jsx:168-174 | with no media selected, the first media, colour and size are selected; otherwise nothing changes |
| `ProductDetails.ProductView.ClickColor` | src/pages/productDetails.jsx:824-828 | the colour becomes selected; when it has media its first media is selected and its media are shown, otherwise the media selection stays |
| `ProductDetails.ProductView.ClickSize` | src/pages/productDetails.jsx:860-865 | an enabled size button selects only that size; a size with a defined stock then makes the product available |
| `ProductDetails.ProductView.FileUpload` | src/pages/productDetails.jsx:292-310 | the new item is appended at the end of the media and becomes the selected media; nothing else changes |
| `ProductDetails.ProductView.DeleteMedia` | src/pages/productDetails.jsx:312-316 | exactly item idx leaves the media and the selection moves to the new first item, or none |
| `ProductDetails.ProductView.ChangeColor` | src/pages/productDetails.jsx:319-326 | only the chosen field of colour idx changes; the rest of the product and the selections stay |
| `ProductDetails.ProductView.ChangeSize` | src/pages/productDetails.jsx:319-326 | only the chosen field of size idx changes |
| `ProductDetails.ProductView.Purchase` | src/pages/productDetails.jsx:888-902 | "add to cart" and "buy now" work exactly when the selection is available, and put the cart line with the cart price |
| `MediaGallery.SingleModeShowsOne` | src/components/product/ProductMediaGallery.jsx:56-60 | single mode shows at most one slide: the selection, else the first item, else nothing (with the next two rows, pins down `SliderData`) |
| `MediaGallery.MultipleModeSelectedFirst` | src/components/product/ProductMediaGallery.jsx:61-66 | multiple mode shows the selection followed by the list filtered by `src` (`Lists.WithoutId`, whose rows give its members and order); no later slide shares its `src`; every other item stays and nothing else is added |
| `MediaGallery.MultipleModeKeepsOrder` | src/components/product/ProductMediaGallery.jsx:63-66 | the slides after the selection keep the list's order: a list joined from two parts gives the first part's slider followed by the filtered second part (with the two rows above, pins down `SliderData`) |
| `MediaGallery.ActiveMedia` | src/components/product/ProductMediaGallery.jsx:69 | the active item is the selection in multiple mode and the first slide (or none) in single mode |
| `MediaGallery.PickedItem` | src/components/product/ProductMediaGallery.jsx:85-101 | a file input without a file picks nothing; a local file becomes a new item; a library item is taken as it is |
| `MediaGallery.Route` | src/components/product/ProductMediaGallery.jsx:103-108 | single mode calls only `setSelectedMedia`; multiple mode calls `onAddMedia` then `onSelectMedia` (when passed) with the same item; a missing required callback throws |
| `MediaGallery.Gallery.constructor` | src/components/product/ProductMediaGallery.jsx:17-40 | the widget starts with its props (including `isEditable`), the modal closed and no callback made |
| `MediaGallery.Gallery.OpenLibrary` | src/components/product/ProductMediaGallery.jsx:191 | in an editable gallery (the only one that renders the add menu), the library modal opens and nothing else changes |
| `MediaGallery.Gallery.HandleSelection` | src/components/product/ProductMediaGallery.jsx:85-110 | no file changes nothing; otherwise the item is routed to the callbacks and the modal closes, unless a missing callback throws first |
| `MediaGallery.Gallery.SlideChange` | src/components/product/ProductMediaGallery.jsx:152-154 | moving the slider selects the slide moved to; without `onSelectMedia` the call throws and nothing is selected |
| `MediaGallery.Gallery.ThumbnailClick` | src/components/product/ProductMediaGallery.jsx:349 | a thumbnail click selects that item; without `onSelectMedia` the call throws and nothing is selected |
| `MediaGallery.Gallery.DeleteClick` | src/components/product/ProductMediaGallery.jsx:286-293 | in an editable gallery, the single-mode trash button (shown only while a slide is active) asks for a deletion without an index only when a handler was passed; a thumbnail's button asks for its index and throws without a handler |
| `MediaGallery.NewItemShownFirst` | src/components/product/ProductMediaGallery.jsx:63-66 | after an upload selects the new item, the slider opens on it |
| `ColorsEditor.NewColor` | src/components/product/ProductColorsEditor.jsx:36 | a new colour has no media, no swatch and no stock |
| `ColorsEditor.AppendColorMedia` | src/components/product/ProductColorsEditor.jsx:55-61 | the items go at the end of one colour's media; every other colour, and that colour's other fields, are unchanged |
| `ColorsEditor.RemoveColorMedia` | src/components/product/ProductColorsEditor.jsx:74-81 | exactly one medium of one colour is filtered out; the other colours are unchanged |
| `ColorsEditor.MediaEditsKeepStock` | src/pages/productDetails.jsx:338-339 | attaching or removing colour media never changes the stock sent on save |
| `ColorsEditor.ColorListEditsAndStock` | src/components/product/ProductColorsEditor.jsx:26-38 | a new colour adds nothing to the colour total; removing colour i takes exactly its stock off |
| `ColorsEditor.ColorEditor.constructor` | src/components/product/ProductColorsEditor.jsx:15-17 | the editor starts with the modal closed and no active colour |
| `ColorsEditor.ColorEditor.OpenLibrary` | src/components/product/ProductColorsEditor.jsx:152-155 | the colour is remembered and the library modal opens |
| `ColorsEditor.ColorEditor.OpenFilePicker` | src/components/product/ProductColorsEditor.jsx:164-167 | the colour is remembered and the modal is left alone |
| `ColorsEditor.ColorEditor.AddColor` | src/components/product/ProductColorsEditor.jsx:33-38 | one empty colour is appended, also to an absent list; nothing else changes |
| `ColorsEditor.ColorEditor.RemoveColor` | src/components/product/ProductColorsEditor.jsx:26-31 | exactly colour i goes and the rest keep their order |
| `ColorsEditor.ColorEditor.SelectFiles` | src/components/product/ProductColorsEditor.jsx:40-71 | one item per chosen file, in order, is appended to the active colour and the modal closes; an empty choice changes nothing |
| `ColorsEditor.ColorEditor.SelectLibraryItem` | src/components/product/ProductColorsEditor.jsx:62-71 | exactly the picked item is appended to the active colour and the modal closes |
| `ColorsEditor.ColorEditor.RemoveMedia` | src/components/product/ProductColorsEditor.jsx:74-82 | exactly medium m of colour c goes; that colour loses one medium |
| `ColorsEditor.LocalItems` | src/components/product/ProductColorsEditor.jsx:48-53 | one media item per file, in order, each built from its file and object URL |
| `SizesEditor.NewSize` | src/components/product/ProductSizesEditor.jsx:20 | a new size has an empty price text and no stock field |
| `SizesEditor.NewSizeDoesNotDecide` | src/components/product/ProductSizesEditor.jsx:20 | selecting a new size gives the same availability as selecting none, and its button is enabled |
| `SizesEditor.SizeListEditsAndStock` | src/components/product/ProductSizesEditor.jsx:10-22 | a new size adds nothing to the size total; removing size i takes exactly its stock off |
| `SizesEditor.AddSize` | src/components/product/ProductSizesEditor.jsx:17-22 | one new size is appended, also to an absent list; the length grows by one |
| `SizesEditor.RemoveSize` | src/components/product/ProductSizesEditor.jsx:10-15 | exactly size i goes, the rest keep their order, and the length drops by one |
| `SizesEditor.EditRow` | src/components/product/ProductSizesEditor.jsx:28-48 | a row's input edits exactly that field of that size; the other sizes are untouched |
| `InfoForm.BlankOrNumber` | src/components/product/ProductInfoForm.jsx:65 | price and stock: an empty input is stored as "" (falsy), anything else as `Number(input)` |
| `InfoForm.ZeroOrNumber` | src/components/product/ProductInfoForm.jsx:77 | promotion and sold count: an empty input is stored as 0, anything else as a number or NaN |
| `InfoForm.EditLaws` | src/components/product/ProductInfoForm.jsx:52-147 | an edit stores the coerced input in its own field and leaves every other field (save the cleared subcategory); a second edit of a field overrides the first (pins down `Edit`) |
| `InfoForm.CoercionsAgreeOutsideEmpty` | src/components/product/ProductInfoForm.jsx:61-106 | the two coercions differ only on the empty input, and even there both read as 0 |
| `InfoForm.NumberInputRoundTrip` | src/components/product/ProductInfoForm.jsx:61-94 | typing the digits of a count stores that count |
| `InfoForm.OnCategoryChange` | src/components/product/ProductInfoForm.jsx:27-36 | with no category the subcategory list is emptied without a request; otherwise that category's subcategories are fetched |
| `InfoForm.CategoryChangeClearsSubcategory` | src/components/product/ProductInfoForm.jsx:127-149 | choosing a category always clears the subcategory; clearing it disables the subcategory select and empties its list |
| `ProductCard.Images` | src/components/product/Product.jsx:16 | exactly the image items of the media, and nothing else |
| `ProductCard.ImagesAppend` | src/components/product/Product.jsx:16 | the filter keeps the original order |
| `ProductCard.ImagesOfPictures` | src/components/product/Product.jsx:16 | a list of images is kept whole and a list of videos gives nothing |
| `ProductCard.MainImage` | src/components/product/Product.jsx:17 | the first image's path, or the placeholder URL; never empty |
| `ProductCard.HoverImage` | src/components/product/Product.jsx:18 | the second image's path, or the main image |
| `ProductCard.ImageFallbacks` | src/components/product/Product.jsx:16-51 | with no image the placeholder is shown; with one image the hover image is the main one and is not rendered; a hover image needs two media |
| `ProductCard.PriceLineAsWritten` | src/components/product/Product.jsx:94-116 | as written: the plain price for a falsy promotion, the promotion line for a positive one, and no price otherwise |
| `ProductCard.NegativePromotionHidesPrice` | src/components/product/Product.jsx:96-107 | a promotion of -5 shows no price at all |
| `ProductCard.CardPriceLine` | src/components/product/Product.jsx:96-116 | corrected, see "## Findings": the promotion line exactly for a positive promotion, the plain price otherwise (the code as written shows no price for a negative promotion) |
| `ProductCard.CardPriceLineShowsPrice` | src/components/product/Product.jsx:96-116 | the card always shows a price; it agrees with the code wherever the code shows one; the price shown is the detail page's cart price |
| `ProductCard.PromoNeverRaisesPrice` | src/components/product/Product.jsx:20-25 | under a promotion up to 100 % the card's discounted price is between 0 and the rounded price |
| `ProductCard.ColorDots` | src/components/product/Product.jsx:121-134 | at most three dots, for the first colours in order, and a "+N" badge exactly when there are more than three |
| `ProductCard.DotsCountEveryColor` | src/components/product/Product.jsx:121-134 | dots plus N count every colour; three or fewer colours are all shown; N is at least 1 |
| `Listing.NormalizePayload` | src/pages/shop.jsx:40-54 | falsy stays falsy; arrays map element-wise with the same length; a record without media is unchanged; otherwise only its media are normalised |
| `Listing.NormalizeArrayPointwise` | src/pages/shop.jsx:42-44 | element i of a normalised array is element i normalised |
| `Listing.NormalizePayloadAbsolute` | src/pages/catrgory.jsx:45-61 | with an absolute base URL every media path of the result is absolute and a second pass changes nothing |
| `Listing.OrEmptyPayload` | src/pages/catrgory.jsx:76 | a missing list becomes the empty array; anything else is kept |
| `Listing.WindowBounds` | src/pages/shop.jsx:35-36 | the window ends within the total and spans at most one page; a full page spans exactly one page; the last page ends at the total |
| `Shop.ShopPage.constructor` | src/pages/shop.jsx:16-18 | the page starts with no products, loading, on page 0 |
| `Shop.ShopPage.FilterChanged` | src/pages/shop.jsx:80-82 | a filter change goes back to page 0, whose window starts at 1 |
| `Shop.ShopPage.PageChange` | src/pages/shop.jsx:30-33 | a page change sets the current page and nothing else |
| `Shop.ShopPage.FetchStarted` | src/pages/shop.jsx:58 | a fetch puts the page in its loading state |
| `Shop.ShopPage.FetchSucceeded` | src/pages/shop.jsx:60-73 | the normalised products and the total are stored, loading ends, and the window ends within the total |
| `Shop.ShopPage.FetchFailed` | src/pages/shop.jsx:70-74 | a failed fetch keeps the list and ends loading |
| `CategoryPage.FormattedCategory` | src/pages/catrgory.jsx:36-38 | the title has no "-", no whitespace at either end, and is no longer than the route parameter |
| `CategoryPage.FormattedCategoryIdempotent` | src/pages/catrgory.jsx:36-38 | cleaning a cleaned title changes nothing |
| `CategoryPage.SlugBecomesWords` | src/pages/catrgory.jsx:36-38 | a slug with no dash or whitespace at its ends becomes the slug with dashes turned into spaces |
| `CategoryPage.FetchedList` | src/pages/catrgory.jsx:76 | a missing list becomes empty; otherwise it is normalised |
| `CategoryPage.Tiles` | src/pages/catrgory.jsx:130-146 | every pack tile comes first, in order, followed by every product tile, in order |
| `CategoryPage.PacksBeforeProducts` | src/pages/catrgory.jsx:76-146 | for fetched lists (or missing ones) the grid always renders, all packs before all products |
| `NewArrivals.FirstFour` | src/components/home/NewArrivals.jsx:31-32 | at most four products: exactly the first ones of the normalised list; a missing list gives none |
| `NewArrivals.FirstFourAreTheFirst` | src/components/home/NewArrivals.jsx:31-32 | never more than four, exactly four when there are four, and entry i is product i normalised |
| `NewArrivals.Strip.constructor` | src/components/home/NewArrivals.jsx:9-10 | the strip starts empty and loading |
| `NewArrivals.Strip.FetchSucceeded` | src/components/home/NewArrivals.jsx:29-37 | the first four normalised products are stored and loading ends |
| `NewArrivals.Strip.FetchFailed` | src/components/home/NewArrivals.jsx:33-37 | a failed fetch keeps the list and loading still ends |
| `Lists.WithoutId` | src/components/home/Banner.jsx:108 | deleting by id never makes the list longer |
| `Lists.WithoutIdMembers` | src/components/home/Banner.jsx:108 | an entry survives the deletion exactly when its id differs: none with the id is kept, none without it is lost |
| `Lists.WithoutIdAppend` | src/components/home/Story.jsx:366 | filtering by id keeps the order of the rest |
| `Lists.WithoutIdExactlyOne` | src/components/home/Banner.jsx:108 | when the id is unique, exactly that entry goes |
| `Lists.WithoutIdAbsent` | src/components/home/Story.jsx:366 | deleting an id that no entry has changes nothing |
| `Banner.NormalizeBannerSrc` | src/components/home/Banner.jsx:37-45 | a missing list stays missing; otherwise same length, and only `img` changes, prefixed unless absolute |
| `Banner.BannerSrcAbsolute` | src/components/home/Banner.jsx:37-45 | with an absolute base URL every image is absolute and a second pass changes nothing |
| `Banner.RenderedIsCurrent` | src/components/home/Banner.jsx:128-129 | exactly the slide at the current index is rendered, and nothing when the index is off the list (pins down `RenderedAt`) |
| `Banner.DefaultDraft` | src/components/home/Banner.jsx:25-32 | the form starts with no title, no image and no file |
| `Banner.Picked` | src/components/home/Banner.jsx:220-227 | a picked item sets the draft's file and preview and keeps its texts |
| `Banner.BannerPickThrows` | src/components/home/Banner.jsx:216-228 | as written, picking an image in the banner's single-mode gallery throws, because `setSelectedMedia` is not passed |
| `Banner.BannerPickReachesDraft` | src/components/home/Banner.jsx:216-228 | with the handler passed, a pick reaches the draft, which the gallery then shows |
| `Banner.RequestAsWritten` | src/components/home/Banner.jsx:75-86 | as written, a request is sent exactly when a file is chosen, always as a file part |
| `Banner.LibraryPickRefused` | src/components/home/Banner.jsx:75-86 | a library image (no file) is refused, so the URL branch can never run |
| `Banner.RequestFor` | src/components/home/Banner.jsx:75-86 | corrected, see "## Findings": a file is sent as a file, else a chosen preview URL as a URL; nothing is sent with neither (the code as written never sends a URL) |
| `Banner.EveryPickIsSent` | src/components/home/Banner.jsx:75-86 | every picked image, uploaded or from the library, produces a request |
| `Banner.DeleteShownLastSlideBlanks` | src/components/home/Banner.jsx:103-115 | as written, deleting the shown last of two slides leaves an index off the list: nothing is rendered and autoplay stops (pins down `DeleteAsWritten`) |
| `Banner.BannerView.constructor` | src/components/home/Banner.jsx:47-62 | the fetched slides are stored normalised, index 0, modal closed, default draft; the first slide is shown |
| `Banner.BannerView.Tick` | src/components/home/Banner.jsx:65-71 | with more than one slide and the modal closed, the index moves to the next slide, wrapping round |
| `Banner.BannerView.ClickIndicator` | src/components/home/Banner.jsx:186 | indicator idx shows slide idx |
| `Banner.BannerView.SetOpen` | src/components/home/Banner.jsx:198 | opening the editor stops autoplay |
| `Banner.BannerView.SelectImage` | src/components/home/Banner.jsx:220-227 | a picked image becomes the draft's image |
| `Banner.BannerView.ClearImage` | src/components/home/Banner.jsx:228 | removing the image clears file and preview, so nothing can be sent |
| `Banner.BannerView.Submit` | src/components/home/Banner.jsx:73-101 | corrected, see "## Findings": the request follows the draft as `Banner.RequestFor` builds it, a library pick being sent by its URL where the code as written refuses it; on success the slide is appended normalised, the form resets and the editor closes |
| `Banner.BannerView.Delete` | src/components/home/Banner.jsx:103-115 | corrected, see "## Findings": a confirmed, successful delete drops the slides with that id, keeps the others in order and brings an index left past the end back to 0 (the code as written never changes it), so a slide is shown while any remain; an unconfirmed or failed delete changes nothing |
| `Story.VideoUrl` | src/components/home/Story.jsx:329-334 | an http URL is kept; any other path becomes base + "/" + path with backslashes turned into slashes; a missing path prints "undefined" |
| `Story.VideoUrlSettles` | src/components/home/Story.jsx:329-334 | with an absolute base URL the result is absolute, rewriting it again changes nothing, and its path part has no backslash |
| `Story.NormalizeStories` | src/components/home/Story.jsx:328-335 | every story keeps its fields except the rewritten video URL, in order |
| `Story.NormalizedStoriesAbsolute` | src/components/home/Story.jsx:329-334 | every stored story has an absolute video URL |
| `Story.RefetchKeepsRelativeUrl` | src/components/home/Story.jsx:354-355 | as written, after a create a story stored with a relative path keeps it, though the first load rewrote it |
| `Story.Reel.Current` | src/components/home/Story.jsx:171-187 | the reel shows the story at the index, and nothing off the list |
| `Story.Reel.constructor` | src/components/home/Story.jsx:168-169 | the reel opens on the given stories and index |
| `Story.Reel.Next` | src/components/home/Story.jsx:178 | one story on unless on the last; a disabled button does nothing; an in-range index stays in range |
| `Story.Reel.Prev` | src/components/home/Story.jsx:179 | one story back unless on the first; same guarantees |
| `Story.Reel.DragEnd` | src/components/home/Story.jsx:181-185 | a drag up past 50 goes on, down past 50 goes back, anything shorter stays |
| `Story.EmptyStoryDraft` | src/components/home/Story.jsx:305-311 | the empty draft has no video |
| `Story.StoryStrip.constructor` | src/components/home/Story.jsx:325-340 | the fetched stories are stored with rewritten video URLs |
| `Story.StoryStrip.OpenReel` | src/components/home/Story.jsx:405-407 | a card click opens the reel on that story |
| `Story.StoryStrip.Submit` | src/components/home/Story.jsx:342-360 | corrected, see "## Findings": nothing is sent without a video; a create closes the editor; the refetched list is stored rewritten (the code as written stores it raw) and the draft emptied |
| `Story.StoryStrip.Delete` | src/components/home/Story.jsx:362-370 | a confirmed, successful delete drops the stories with that id and keeps the rest in order |
| `HeaderTop.Progress` | src/components/header/HeaderTop.jsx:22 | the loader is at most 100, not negative, equals 100 exactly from 4500 ms on, and grows linearly before |
| `HeaderTop.ProgressMonotone` | src/components/header/HeaderTop.jsx:19-23 | the loader never goes back as time passes |
| `HeaderTop.Rotations` | src/components/header/HeaderTop.jsx:25-28 | a run of ticks causes at most one message change per tick |
| `HeaderTop.Ticker.constructor` | src/components/header/HeaderTop.jsx:12-14 | the ticker starts on the first message, running, at 0 |
| `HeaderTop.Ticker.Tick` | src/components/header/HeaderTop.jsx:20-30 | below a full loader the progress follows the clock; a full loader resets to 0 and moves to the next message, wrapping round |
| `HeaderTop.Ticker.TogglePause` | src/components/header/HeaderTop.jsx:80 | the button flips `paused` and changes neither the message nor the progress |
| `HeaderTop.Ticker.Run` | src/components/header/HeaderTop.jsx:16-33 | over a run of ticks the message moves on once per full loader, modulo the message count, and the state stays valid |
| `BrandLogo.Logo` | src/components/home/brandLogo.jsx:21-23 | the configured logo after the media base URL, or the bundled one |
| `BrandLogo.Name` | src/components/home/brandLogo.jsx:25 | the configured store name, or "CLIN D'OEIL" (typographic apostrophe); never empty |
| `BrandLogo.Brands` | src/components/home/brandLogo.jsx:28 | ten entries |
| `BrandLogo.StripIsTwentyCopies` | src/components/home/brandLogo.jsx:28-29 | twenty entries, all the same name and logo, the second half repeating the first |
| `CategoryGrid.CardOf` | src/components/home/CategoryGrid.jsx:27-31 | title is the name, link is "/category/" + slug, image is the category's or "/placeholder.png" |
| `CategoryGrid.Cards` | src/components/home/CategoryGrid.jsx:27-32 | one card per category, in order |
| `CategoryGrid.CardsLeadToCategories` | src/components/home/CategoryGrid.jsx:27-31 | every card has an image; different slugs give different links; an image-less card loads the placeholder from the media base URL |
| `CategoryGrid.Settings` | src/components/home/CategoryGrid.jsx:38-49 | one centred card when mobile, four otherwise; autoplay only when not mobile |
| `CategoryGrid.SettingsAgree` | src/components/home/CategoryGrid.jsx:41-49 | centre mode goes with one card, and autoplay runs exactly from 768 px on |
| `CategoryGrid.Carousel.constructor` | src/components/home/CategoryGrid.jsx:11-12 | no cards yet; the width class is read from the window |
| `CategoryGrid.Carousel.Resize` | src/components/home/CategoryGrid.jsx:15 | a resize recomputes only the width class |
| `CategoryGrid.Carousel.Fetched` | src/components/home/CategoryGrid.jsx:24-36 | the fetched categories become the cards |

## Left out

- Network requests, the `FormData` built for them, toasts and console output are outside the model. A request's outcome and its answer are parameters.
- Only the stock total and the `Quantity` sent on save are modelled. The rest of the save/update payload (media ids and URLs, colour JSON, files) is request assembly.
- `toFixed(2)` on floating point and `Intl.NumberFormat` currency formatting are not modelled. Prices are exact reals rounded half-up to cents.
- `Number(...)` on strings is modelled for whitespace, the empty string, an optional leading sign and plain decimals. Exponents, hexadecimal and `Infinity` read as NaN here.
- React effect timing and fetch races are not modelled. This covers the double initialisation of selections, the `null` product before the fetch, and the undefined `totalProducts` before the first answer (0 here).
- `URL.createObjectURL`, `decodeURIComponent`, `window.innerWidth`, `Date.now` and `window.confirm` are inputs.
- `ColorsEditor.ColorEditor.RemoveMedia`: the source assigns `.media` on the colour object it shares with the previous state. The model replaces the colour by value, so aliasing with the previous state is not captured.
- `ColorsEditor.ColorEditor.SelectFiles`: the source builds the new list from the `product` captured at render time, not from the latest state. The model applies the edit to the current product.
- Colour media the API leaves out are modelled as the empty list. A missing size list is modelled as absent, as the source treats it.
- A falsy banner or story list from the API is not modelled: the constructors take a list. For the banner, `NormalizeBannerSrc` covers the falsy case.
- The banner draft's unused `img` field and its text-input edits are not modelled. Nor are the story draft's text inputs and its preview URL. A `null` preview is modelled as "".
- The story reel's mute toggle, its close button and the page's JSON-LD metadata are presentation and are not modelled.
- The slider animation settings and the responsive breakpoints of the category carousel are not modelled. Only the settings derived from `isMobile` are.
- Fields the API leaves out of a category or store settings record are modelled as "".
- `Shop.ShopPage.FetchSucceeded` does not store `totalPages`, which the page only passes on to its pagination view.
- The selection sync effect (src/pages/productDetails.jsx:168-174) selects the first size, while the fetch handler selects none. The model follows the code for both.

## Findings

| source | as written | input that shows it | evidently intended | confidence | as-written member | corrected member |
|---|---|---|---|---|---|---|
| src/components/product/Product.jsx:63-96 | the price is shown only for `promotion === 0` or `promotion > 0` | a promotion of -5 (or any truthy non-positive value, such as "0") | show the plain price whenever there is no positive promotion | not executed | `ProductCard.NegativePromotionHidesPrice` | `ProductCard.CardPriceLineShowsPrice` |
| src/components/home/Banner.jsx:216-228 | the single-mode gallery is given no `setSelectedMedia`, and single mode calls only that | picking any image in the banner editor | the pick reaches the draft | not executed | `Banner.BannerPickThrows` | `Banner.BannerPickReachesDraft` |
| src/components/home/Banner.jsx:75-86 | submitting returns early without a file, so the `imgUrl` branch never runs | an image picked from the media library (no file) | a library image is sent by its URL | not executed | `Banner.LibraryPickRefused` | `Banner.EveryPickIsSent`, `Banner.BannerView.Submit` |
| src/components/home/Banner.jsx:103-115 | deleting a slide keeps `currentIndex` | two slides, the second shown, then the second deleted | the index is brought back onto the list | not executed | `Banner.DeleteShownLastSlideBlanks` | `Banner.BannerView.Delete` |
| src/components/home/Story.jsx:354-355 | the list re-fetched after a create is stored without the video URL rewriting | a story whose video is stored as `uploads\reel.mp4` | the same rewriting as on first load | not executed | `Story.RefetchKeepsRelativeUrl` | `Story.NormalizedStoriesAbsolute`, `Story.StoryStrip.Submit` |

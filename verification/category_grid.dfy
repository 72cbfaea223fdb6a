/** The category carousel of the home page: categories from the API turned into cards, and
    slider settings that depend on whether the window is narrow. */
module CategoryGrid {
  import opened Strings

  /** A category as the API returns it; a missing image is the empty string. */
  datatype Category = Category(name: string, slug: string, image: string)

  /** A card of the carousel. */
  datatype Card = Card(title: string, link: string, image: string)

  const Placeholder: string := "/placeholder.png"

  /** `{title: cat.name, link: "/category/" + cat.slug, image: cat.image || "/placeholder.png"}`. */
  function CardOf(c: Category): (r: Card)
    ensures r.title == c.name
    ensures StartsWith(r.link, "/category/") && r.link[|"/category/"|..] == c.slug
    ensures c.image != [] ==> r.image == c.image
    ensures c.image == [] ==> r.image == Placeholder
  {
    Card(c.name, "/category/" + c.slug, if c.image != [] then c.image else Placeholder)
  }

  /** `data.map(...)`: one card per category, in order. */
  function Cards(data: seq<Category>): (r: seq<Card>)
    ensures |r| == |data|
    ensures forall i :: 0 <= i < |data| ==> r[i] == CardOf(data[i])
  {
    seq(|data|, i requires 0 <= i < |data| => CardOf(data[i]))
  }

  /** The card picture's URL: the media base URL glued to the card's image, whatever it is. */
  function CardImageUrl(base: string, card: Card): string {
    base + card.image
  }

  /** Every card has a picture and a link into the category pages, and two categories with
      different slugs lead to different pages. A category without an image is shown with the
      placeholder fetched from the media base URL. */
  lemma CardsLeadToCategories(base: string, data: seq<Category>)
    ensures forall i :: 0 <= i < |data| ==> Cards(data)[i].image != []
    ensures forall i, j :: 0 <= i < |data| && 0 <= j < |data| && data[i].slug != data[j].slug ==>
              Cards(data)[i].link != Cards(data)[j].link
    ensures forall i :: 0 <= i < |data| && data[i].image == [] ==>
              CardImageUrl(base, Cards(data)[i]) == base + Placeholder
  {
    forall i, j | 0 <= i < |data| && 0 <= j < |data| && data[i].slug != data[j].slug
      ensures Cards(data)[i].link != Cards(data)[j].link
    {
      assert Cards(data)[i].link[|"/category/"|..] == data[i].slug;
      assert Cards(data)[j].link[|"/category/"|..] == data[j].slug;
    }
  }

  /** `window.innerWidth < 768`. */
  predicate IsMobile(width: int) {
    width < 768
  }

  /** The settings that depend on the window width. */
  datatype SliderSettings = SliderSettings(autoplay: bool, slidesToShow: nat, centerMode: bool, centerPadding: string)

  function Settings(isMobile: bool): (s: SliderSettings)
    ensures s.slidesToShow == (if isMobile then 1 else 4)
    ensures s.centerMode == isMobile && s.autoplay == !isMobile
  {
    SliderSettings(!isMobile, if isMobile then 1 else 4, isMobile, if isMobile then "40px" else "0px")
  }

  /** A narrow window shows one centred card and does not scroll on its own; a wide one shows
      four side by side and scrolls. */
  lemma SettingsAgree(width: int)
    ensures Settings(IsMobile(width)).centerMode <==> Settings(IsMobile(width)).slidesToShow == 1
    ensures Settings(IsMobile(width)).autoplay <==> width >= 768
  {
  }

  /** The carousel's state: the cards and the width class, which a resize refreshes. */
  class Carousel {
    var cards: seq<Card>
    var isMobile: bool

    constructor (width: int)
      ensures cards == [] && isMobile == IsMobile(width)
    {
      cards, isMobile := [], IsMobile(width);
    }

    method Resize(width: int)
      modifies this
      ensures isMobile == IsMobile(width) && cards == old(cards)
    {
      isMobile := IsMobile(width);
    }

    /** The fetch answered: one card per category. */
    method Fetched(data: seq<Category>)
      modifies this
      ensures cards == Cards(data) && isMobile == old(isMobile)
    {
      cards := Cards(data);
    }
  }
}

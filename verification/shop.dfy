/** The shop page: the page options it reads (current page, page size), the product list
    it stores after a fetch and the "start to end of total" window it shows. */
module Shop {
  import opened Listing

  /** The page's state: the shared page options and what the last fetch returned. */
  class ShopPage {
    var currentPage: nat
    var productsPerPage: nat
    var totalProducts: nat
    var products: Payload
    var loading: bool

    /** The page as first rendered: no products yet, loading until the first fetch settles
        (the total is not known yet and reads as 0 here). */
    constructor (productsPerPage: nat)
      ensures currentPage == 0 && this.productsPerPage == productsPerPage
      ensures totalProducts == 0 && products == Array([]) && loading
    {
      currentPage, this.productsPerPage := 0, productsPerPage;
      totalProducts, products, loading := 0, Array([]), true;
    }

    /** `start`. */
    function Start(): int
      reads this
    {
      WindowStart(currentPage, productsPerPage)
    }

    /** `end`. */
    function End(): int
      reads this
    {
      WindowEnd(currentPage, productsPerPage, totalProducts)
    }

    /** A change of the selected filters sends the listing back to the first page. */
    method FilterChanged()
      modifies this
      ensures currentPage == 0 && Start() == 1
      ensures productsPerPage == old(productsPerPage) && totalProducts == old(totalProducts)
      ensures products == old(products) && loading == old(loading)
    {
      currentPage := 0;
    }

    /** `handlePageChange(page)`. */
    method PageChange(page: nat)
      modifies this
      ensures currentPage == page
      ensures productsPerPage == old(productsPerPage) && totalProducts == old(totalProducts)
      ensures products == old(products) && loading == old(loading)
    {
      currentPage := page;
    }

    /** A fetch starts: the page shows its loading state. */
    method FetchStarted()
      modifies this
      ensures loading
      ensures currentPage == old(currentPage) && productsPerPage == old(productsPerPage)
      ensures totalProducts == old(totalProducts) && products == old(products)
    {
      loading := true;
    }

    /** The fetch answered: the products are stored normalised (a falsy list as it came), the
        total is stored, and loading ends. */
    method FetchSucceeded(base: string, data: Payload, total: nat)
      modifies this
      ensures products == NormalizePayload(base, data) && totalProducts == total && !loading
      ensures currentPage == old(currentPage) && productsPerPage == old(productsPerPage)
      ensures End() <= totalProducts
    {
      products := NormalizePayload(base, data);
      totalProducts := total;
      loading := false;
      WindowBounds(currentPage, productsPerPage, totalProducts);
    }

    /** The fetch failed: everything stays, and loading still ends. */
    method FetchFailed()
      modifies this
      ensures !loading
      ensures currentPage == old(currentPage) && productsPerPage == old(productsPerPage)
      ensures totalProducts == old(totalProducts) && products == old(products)
    {
      loading := false;
    }
  }
}

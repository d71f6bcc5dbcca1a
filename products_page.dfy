/**
 * The listing page of `src/app/products/page.tsx`: the effect that picks
 * which products to show from the `category` and `search` query
 * parameters, and the state it sets.
 */
module ProductsPage {
  import opened Common
  import opened ProductData

  /**
   * The listing the filter effect selects: a search query, when set,
   * replaces the category filter instead of narrowing it.
   */
  function SelectProducts(products: seq<Product>, category: Option<string>, searchQuery: Option<string>): (r: seq<Product>)
    ensures IsSet(searchQuery) ==> r == SearchProducts(products, searchQuery.value)
    ensures !IsSet(searchQuery) && IsSet(category) ==> r == GetProductsByCategory(products, category.value)
    ensures !IsSet(searchQuery) && !IsSet(category) ==> r == products
    ensures IsSubsequence(r, products)
  {
    if IsSet(searchQuery) then SearchProducts(products, searchQuery.value)
    else if IsSet(category) then GetProductsByCategory(products, category.value)
    else (SubsequenceRefl(products); products)
  }

  /** A product matching a set search query is listed whatever the category filter says. */
  lemma SearchReplacesCategory(products: seq<Product>, category: Option<string>, query: string, k: int)
    requires 0 <= k < |products| && query != ""
    requires Matches(products[k], ToLower(query))
    ensures products[k] in SelectProducts(products, category, Some(query))
  {
  }

  /** The page's state. */
  class ProductsPage {
    /** The catalog the page imports. */
    const catalog: seq<Product>
    var loading: bool
    var filteredProducts: seq<Product>

    /** `useState(true)` and `useState(products)` */
    constructor (catalog: seq<Product>)
      ensures this.catalog == catalog
      ensures loading && filteredProducts == catalog
    {
      this.catalog := catalog;
      loading := true;
      filteredProducts := catalog;
    }

    /**
     * The filter effect: it starts from the whole catalog, lets a set
     * category narrow it, lets a set search query replace it, stores the
     * result and stops loading. Returns the count handed to the header.
     */
    method ApplyFilters(category: Option<string>, searchQuery: Option<string>) returns (productCount: nat)
      modifies this
      ensures !loading
      ensures filteredProducts == SelectProducts(catalog, category, searchQuery)
      ensures productCount == |filteredProducts|
    {
      loading := true;
      var result := catalog;
      if IsSet(category) {
        result := GetProductsByCategory(catalog, category.value);
      }
      if IsSet(searchQuery) {
        result := SearchProducts(catalog, searchQuery.value);
      }
      filteredProducts := result;
      loading := false;
      productCount := |filteredProducts|;
    }
  }
}

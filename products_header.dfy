/**
 * The heading of the listing page, `src/components/product/ProductsHeader.tsx`:
 * the title chosen from the category or search query, and the singular or
 * plural word after the product count.
 */
module ProductsHeader {
  import opened Common

  /** `s.charAt(0).toUpperCase() + s.slice(1)` */
  function Capitalize(s: string): (r: string)
    ensures |r| == |s|
    ensures s != [] ==> r[0] == UpperChar(s[0]) && r[1..] == s[1..]
  {
    if s == [] then [] else [UpperChar(s[0])] + s[1..]
  }

  /**
   * The title: a set category wins over a search query, and with neither
   * the page is titled "All Products".
   */
  function Title(category: Option<string>, searchQuery: Option<string>): (title: string)
    ensures IsSet(category) ==> title == Capitalize(category.value)
    ensures !IsSet(category) && IsSet(searchQuery) ==> title == "Search Results for \"" + searchQuery.value + "\""
    ensures !IsSet(category) && !IsSet(searchQuery) ==> title == "All Products"
  {
    if IsSet(category) then Capitalize(category.value)
    else if IsSet(searchQuery) then "Search Results for \"" + searchQuery.value + "\""
    else "All Products"
  }

  /** A category title differs from the category only in the case of its first letter. */
  lemma CategoryTitleSameLetters(category: string, searchQuery: Option<string>)
    requires category != ""
    ensures ToLower(Title(Some(category), searchQuery)) == ToLower(category)
  {
    var t := Title(Some(category), searchQuery);
    forall i | 0 <= i < |category|
      ensures ToLower(t)[i] == ToLower(category)[i]
    {
      if i == 0 {
        LowerOfUpper(category[0]);
      } else {
        assert t[i] == t[1..][i - 1] == category[1..][i - 1] == category[i];
      }
    }
  }

  /** The titles of the three catalog categories. */
  lemma CatalogCategoryTitles(searchQuery: Option<string>)
    ensures Title(Some("clothing"), searchQuery) == "Clothing"
    ensures Title(Some("electronics"), searchQuery) == "Electronics"
    ensures Title(Some("home"), searchQuery) == "Home"
  {
    assert "clothing"[1..] == "lothing";
    assert "electronics"[1..] == "lectronics";
    assert "home"[1..] == "ome";
  }

  /** The word after the count: "product" for exactly one, "products" otherwise, zero included. */
  function CountLabel(productCount: int): (word: string)
    ensures word == "product" <==> productCount == 1
    ensures productCount != 1 ==> word == "products"
  {
    if productCount == 1 then "product" else "products"
  }
}

/**
 * The product catalog of `src/lib/data/products.ts` and its queries. Each
 * query is one `filter`, `find` or `slice` over the constant catalog.
 * Prices are integer cents and ratings integer tenths of a star.
 */
module ProductData {
  import opened Common

  datatype ProductImage = ProductImage(id: int, url: string, alt: string)

  datatype Product = Product(
    id: int,
    name: string,
    price: int,
    description: string,
    category: string,
    rating: int,
    images: seq<ProductImage>)

  /** The catalog, in its listed order. */
  const Products: seq<Product> := [
      Product(1, "Classic White T-Shirt", 2999,
        "A timeless white t-shirt made from 100% organic cotton. Features a comfortable fit and durable construction.",
        "clothing", 45,
        [ProductImage(1001, "https://images.unsplash.com/photo-1521572163474-6864f9cf17ab", "Classic white t-shirt front view"),
          ProductImage(1002, "https://images.unsplash.com/photo-1562157873-818bc0726f68", "Classic white t-shirt detail view"),
          ProductImage(1003, "https://images.unsplash.com/photo-1583743814966-8936f5b7be1a", "Classic white t-shirt back view")]),
      Product(2, "Slim Fit Denim Jeans", 7999,
        "Modern slim fit jeans in dark wash denim. Features stretch fabric for comfort and style.",
        "clothing", 43,
        [ProductImage(2001, "https://images.unsplash.com/photo-1542272604-787c3835535d", "Slim fit jeans front view"),
          ProductImage(2002, "https://images.unsplash.com/photo-1582552938357-32b906df40cb", "Slim fit jeans detail view"),
          ProductImage(2003, "https://images.unsplash.com/photo-1541099649105-f69ad21f3246", "Slim fit jeans back view")]),
      Product(3, "Wool Blend Sweater", 8999,
        "Cozy wool blend sweater perfect for cold weather. Features ribbed cuffs and hem.",
        "clothing", 47,
        [ProductImage(3001, "https://images.unsplash.com/photo-1576566588028-4147f3842f27", "Wool sweater front view"),
          ProductImage(3002, "https://images.unsplash.com/photo-1583743814966-8936f5b7be1a", "Wool sweater detail view"),
          ProductImage(3003, "https://images.unsplash.com/photo-1584670747417-594a9412fba5", "Wool sweater back view")]),
      Product(4, "Wireless Noise-Cancelling Headphones", 24999,
        "Premium wireless headphones with active noise cancellation and 30-hour battery life.",
        "electronics", 48,
        [ProductImage(4001, "https://images.unsplash.com/photo-1505740420928-5e560c06d30e", "Wireless headphones front view"),
          ProductImage(4002, "https://images.unsplash.com/photo-1484704849700-f032a568e944", "Wireless headphones detail view"),
          ProductImage(4003, "https://images.unsplash.com/photo-1524678606370-a47ad25cb82a", "Wireless headphones in use")]),
      Product(5, "Smart 4K TV - 55\"", 69999,
        "Ultra HD Smart TV with HDR and built-in streaming apps. Features crystal-clear picture quality.",
        "electronics", 46,
        [ProductImage(5001, "https://images.unsplash.com/photo-1593359677879-a4bb92f829d1", "Smart TV front view"),
          ProductImage(5002, "https://images.unsplash.com/photo-1593784991095-a205069470b6", "Smart TV in living room"),
          ProductImage(5003, "https://images.unsplash.com/photo-1593784991095-a205069470b6", "Smart TV interface")]),
      Product(6, "Smartphone Pro Max", 99999,
        "Latest flagship smartphone with advanced camera system and all-day battery life.",
        "electronics", 49,
        [ProductImage(6001, "https://images.unsplash.com/photo-1592750475338-74b7b21085ab", "Smartphone front view"),
          ProductImage(6002, "https://images.unsplash.com/photo-1610945415295-d9bbf067e59c", "Smartphone camera detail"),
          ProductImage(6003, "https://images.unsplash.com/photo-1605236453806-6ff36851218e", "Smartphone in use")]),
      Product(7, "Modern Coffee Table", 19999,
        "Sleek modern coffee table with tempered glass top and wooden base.",
        "home", 44,
        [ProductImage(7001, "https://images.unsplash.com/photo-1533090481720-856c6e3c1fdc", "Coffee table front view"),
          ProductImage(7002, "https://images.unsplash.com/photo-1554295405-abb8fd54f153", "Coffee table in living room"),
          ProductImage(7003, "https://images.unsplash.com/photo-1532372320572-cda25653a26d", "Coffee table detail view")]),
      Product(8, "Ceramic Plant Pot Set", 4999,
        "Set of 3 minimalist ceramic plant pots in varying sizes. Perfect for indoor plants.",
        "home", 42,
        [ProductImage(8001, "https://images.unsplash.com/photo-1485955900006-10f4d324d411", "Ceramic pots set"),
          ProductImage(8002, "https://images.unsplash.com/photo-1509423350716-97f9360b4e09", "Ceramic pots with plants"),
          ProductImage(8003, "https://images.unsplash.com/photo-1459411552884-841db9b3cc2a", "Ceramic pots detail")]),
      Product(9, "Luxury Bedding Set", 15999,
        "100% Egyptian cotton bedding set including duvet cover, fitted sheet, and pillowcases.",
        "home", 47,
        [ProductImage(9001, "https://images.unsplash.com/photo-1522771739844-6a9f6d5f14af", "Bedding set on bed"),
          ProductImage(9002, "https://images.unsplash.com/photo-1584100936595-c0654b55a2e6", "Bedding set detail"),
          ProductImage(9003, "https://images.unsplash.com/photo-1616594039964-ae9021a400a0", "Bedding set in bedroom")])
    ]

  function InCategory(category: string): Product -> bool
  {
    (p: Product) => p.category == category
  }

  /**
   * `getProductsByCategory` over the catalog `products`: its products of
   * `category`, in catalog order.
   */
  function GetProductsByCategory(products: seq<Product>, category: string): (r: seq<Product>)
    ensures forall j :: 0 <= j < |r| ==> r[j].category == category && r[j] in products
    ensures forall j :: 0 <= j < |products| && products[j].category == category ==> products[j] in r
    ensures IsSubsequence(r, products)
    ensures forall x :: multiset(r)[x] == if x.category == category then multiset(products)[x] else 0
  {
    FilterIsSubsequence(products, InCategory(category));
    FilterCounts(products, InCategory(category));
    Filter(products, InCategory(category))
  }

  /** `getProductById` over the catalog `products`: the first product with that id, if any. */
  function GetProductById(products: seq<Product>, id: int): (r: Option<Product>)
    ensures r.None? <==> forall j :: 0 <= j < |products| ==> products[j].id != id
    ensures r.Some? ==>
      exists k :: FirstWithId(products, id, k) && products[k] == r.value
  {
    if products == [] then None
    else if products[0].id == id then (assert FirstWithId(products, id, 0); Some(products[0]))
    else
      var r := GetProductById(products[1..], id);
      assert forall j :: 1 <= j < |products| ==> products[j] == products[1..][j - 1];
      if r.Some? then FirstWithIdShift(products, id, r.value); r else r
  }

  lemma FirstWithIdShift(products: seq<Product>, id: int, p: Product)
    requires products != [] && products[0].id != id
    requires exists k :: FirstWithId(products[1..], id, k) && products[1..][k] == p
    ensures exists k :: FirstWithId(products, id, k) && products[k] == p
  {
    var k :| FirstWithId(products[1..], id, k) && products[1..][k] == p;
    assert FirstWithId(products, id, k + 1);
  }

  /** Index `k` holds the first product of `products` with id `id`. */
  ghost predicate FirstWithId(products: seq<Product>, id: int, k: int)
  {
    0 <= k < |products| && products[k].id == id && forall j :: 0 <= j < k ==> products[j].id != id
  }

  /** In a catalog with distinct ids, looking up a product's id finds that product. */
  lemma GetProductByIdDistinct(products: seq<Product>, k: int)
    requires 0 <= k < |products|
    requires forall i, j :: 0 <= i < j < |products| ==> products[i].id != products[j].id
    ensures GetProductById(products, products[k].id) == Some(products[k])
  {
    var r := GetProductById(products, products[k].id);
    var k' :| FirstWithId(products, products[k].id, k') && products[k'] == r.value;
  }

  /** `getFeaturedProducts` over the catalog `products`: its first three products. */
  function GetFeaturedProducts(products: seq<Product>): (r: seq<Product>)
    ensures |r| == if |products| < 3 then |products| else 3
    ensures r <= products
  {
    Take(products, 3)
  }

  /** A product whose lower-cased name or description includes `term`. */
  predicate Matches(p: Product, term: string)
  {
    Includes(ToLower(p.name), term) || Includes(ToLower(p.description), term)
  }

  function MatchesTerm(term: string): Product -> bool
  {
    (p: Product) => Matches(p, term)
  }

  /**
   * `searchProducts` over the catalog `products`: the products whose
   * lower-cased name or description includes the lower-cased query, in
   * catalog order.
   */
  function SearchProducts(products: seq<Product>, query: string): (r: seq<Product>)
    ensures forall j :: 0 <= j < |r| ==> r[j] in products && Matches(r[j], ToLower(query))
    ensures forall j :: 0 <= j < |products| && Matches(products[j], ToLower(query)) ==> products[j] in r
    ensures IsSubsequence(r, products)
    ensures forall x :: multiset(r)[x] == if Matches(x, ToLower(query)) then multiset(products)[x] else 0
  {
    var searchTerm := ToLower(query);
    FilterIsSubsequence(products, MatchesTerm(searchTerm));
    FilterCounts(products, MatchesTerm(searchTerm));
    Filter(products, MatchesTerm(searchTerm))
  }

  /** An empty query matches every product. */
  lemma SearchEmptyIsCatalog(products: seq<Product>)
    ensures SearchProducts(products, "") == products
  {
    forall p | p in products
      ensures MatchesTerm(ToLower(""))(p)
    {
      IncludesEmpty(ToLower(p.name));
    }
    FilterAll(products, MatchesTerm(ToLower("")));
  }

  /** The catalog has nine products whose ids are 1 to 9 in order, so ids are distinct. */
  lemma CatalogIds()
    ensures |Products| == 9
    ensures forall j :: 0 <= j < |Products| ==> Products[j].id == j + 1
    ensures forall i, j :: 0 <= i < j < |Products| ==> Products[i].id != Products[j].id
  {
  }

  /** On the catalog, `getProductById(k)` is the k-th product for k in 1..9 and nothing otherwise. */
  lemma GetProductByIdCatalog(id: int)
    ensures 1 <= id <= 9 ==> GetProductById(Products, id) == Some(Products[id - 1])
    ensures (id < 1 || 9 < id) ==> GetProductById(Products, id) == None
  {
    CatalogIds();
    if 1 <= id <= 9 {
      GetProductByIdDistinct(Products, id - 1);
    }
  }
}

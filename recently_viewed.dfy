/**
 * The recently-viewed list of `src/components/product/RecentlyViewed.tsx`:
 * `addToRecentlyViewed`, which reads the saved list, moves the viewed
 * product to the front and keeps at most four entries, and the component,
 * which loads the saved list once and renders nothing while it is empty.
 * The storage entry is abstracted to what reading and parsing it yields.
 */
module RecentlyViewed {
  import opened Common

  /** A recently viewed product; price in cents, rating in tenths of a star. */
  datatype Product = Product(id: int, name: string, price: int, rating: int, image: string, category: string)

  /** `MAX_RECENT_PRODUCTS` */
  const MaxRecentProducts: nat := 4

  /**
   * The `recentlyViewed` entry as read and parsed: missing or empty, not
   * parseable, or a parsed list.
   */
  datatype SavedList = Absent | Unparseable | Saved(products: seq<Product>)

  function OtherProduct(id: int): Product -> bool
  {
    (p: Product) => p.id != id
  }

  function IdOf(p: Product): int
  {
    p.id
  }

  ghost predicate IdsDistinct(products: seq<Product>)
  {
    DistinctBy(products, IdOf)
  }

  /**
   * The list `addToRecentlyViewed` writes back: entries with the viewed
   * id removed, the viewed product put first, and the list cut to
   * `MaxRecentProducts`.
   */
  function ViewProduct(recent: seq<Product>, product: Product): (r: seq<Product>)
    ensures 1 <= |r| <= MaxRecentProducts
    ensures r[0] == product
    ensures forall j :: 1 <= j < |r| ==> r[j].id != product.id
    ensures r[1..] == Take(Filter(recent, OtherProduct(product.id)), MaxRecentProducts - 1)
    ensures IsSubsequence(r[1..], recent)
  {
    var rest := Filter(recent, OtherProduct(product.id));
    var r := Take([product] + rest, MaxRecentProducts);
    assert r[1..] == Take(rest, MaxRecentProducts - 1);
    FilterIsSubsequence(recent, OtherProduct(product.id));
    PrefixIsSubsequence(r[1..], rest, recent);
    r
  }

  lemma {:induction false} PrefixIsSubsequence(a: seq<Product>, b: seq<Product>, c: seq<Product>)
    requires a <= b && IsSubsequence(b, c)
    ensures IsSubsequence(a, c)
    decreases |c|
  {
    if a != [] && c != [] {
      if b[0] == c[0] && IsSubsequence(b[1..], c[1..]) {
        PrefixIsSubsequence(a[1..], b[1..], c[1..]);
      } else {
        PrefixIsSubsequence(a, b, c[1..]);
      }
    }
  }

  /** Distinct ids stay distinct after a view. */
  lemma ViewKeepsIdsDistinct(recent: seq<Product>, product: Product)
    requires IdsDistinct(recent)
    ensures IdsDistinct(ViewProduct(recent, product))
  {
    FilterKeepsDistinctBy(recent, OtherProduct(product.id), IdOf);
  }

  /** Viewing again a product that is already listed keeps the length of a full-or-shorter list. */
  lemma ReViewKeepsLength(recent: seq<Product>, product: Product, k: int)
    requires |recent| <= MaxRecentProducts && IdsDistinct(recent)
    requires 0 <= k < |recent| && recent[k].id == product.id
    ensures |ViewProduct(recent, product)| == |recent|
  {
    FilterDropsOne(recent, OtherProduct(product.id), k);
  }

  /** Viewing a product not listed puts it in front of the list, the oldest entry dropping off a full list. */
  lemma ViewNewProduct(recent: seq<Product>, product: Product)
    requires forall j :: 0 <= j < |recent| ==> recent[j].id != product.id
    ensures ViewProduct(recent, product) == Take([product] + recent, MaxRecentProducts)
  {
    FilterAll(recent, OtherProduct(product.id));
  }

  /** Viewing four products with distinct ids, starting from nothing, lists all four, newest first. */
  lemma FourViews(a: Product, b: Product, c: Product, d: Product)
    requires a.id != b.id && a.id != c.id && a.id != d.id
    requires b.id != c.id && b.id != d.id && c.id != d.id
    ensures ViewProduct(ViewProduct(ViewProduct(ViewProduct([], a), b), c), d) == [d, c, b, a]
  {
    var s1 := ViewProduct([], a);
    assert s1 == [a] by { ViewNewProduct([], a); }
    var s2 := ViewProduct(s1, b);
    assert s2 == [b, a] by { ViewNewProduct([a], b); }
    var s3 := ViewProduct(s2, c);
    assert s3 == [c, b, a] by { ViewNewProduct([b, a], c); }
    ViewNewProduct([c, b, a], d);
  }

  /** A new product viewed on a full list goes first and the oldest entry drops off. */
  lemma ViewOntoFullList(w: Product, x: Product, y: Product, z: Product, p: Product)
    requires p.id != w.id && p.id != x.id && p.id != y.id && p.id != z.id
    ensures ViewProduct([w, x, y, z], p) == [p, w, x, y]
  {
    ViewNewProduct([w, x, y, z], p);
    assert [p] + [w, x, y, z] == [p, w, x, y, z];
  }

  /** A fifth distinct product pushes the oldest one out: the last four remain, newest first. */
  lemma FiveViewsScenario(a: Product, b: Product, c: Product, d: Product, e: Product)
    requires a.id != b.id && a.id != c.id && a.id != d.id && a.id != e.id
    requires b.id != c.id && b.id != d.id && b.id != e.id
    requires c.id != d.id && c.id != e.id && d.id != e.id
    ensures ViewProduct(ViewProduct(ViewProduct(ViewProduct(ViewProduct([], a), b), c), d), e) == [e, d, c, b]
  {
    FourViews(a, b, c, d);
    ViewOntoFullList(d, c, b, a, e);
  }

  /** The list read by `addToRecentlyViewed`: `saved ? JSON.parse(saved) : []`. */
  function Loaded(saved: SavedList): seq<Product>
    requires !saved.Unparseable?
  {
    if saved.Saved? then saved.products else []
  }

  /** The `recentlyViewed` storage entry. */
  class RecentStorage {
    var saved: SavedList

    constructor (saved: SavedList)
      ensures this.saved == saved
    {
      this.saved := saved;
    }
  }

  /**
   * `addToRecentlyViewed`. A parse failure, or a failing write
   * (`writeFails`), is caught and nothing is written.
   */
  method AddToRecentlyViewed(storage: RecentStorage, product: Product, writeFails: bool)
    modifies storage
    ensures old(storage.saved).Unparseable? || writeFails ==> storage.saved == old(storage.saved)
    ensures !old(storage.saved).Unparseable? && !writeFails ==>
      storage.saved == Saved(ViewProduct(Loaded(old(storage.saved)), product))
  {
    var recentProducts: seq<Product>;
    match storage.saved {
      case Unparseable => return;
      case Absent => recentProducts := [];
      case Saved(products) => recentProducts := products;
    }
    recentProducts := Filter(recentProducts, OtherProduct(product.id));
    recentProducts := [product] + recentProducts;
    recentProducts := Take(recentProducts, MaxRecentProducts);
    if !writeFails {
      storage.saved := Saved(recentProducts);
    }
  }

  /** The `RecentlyViewed` component's state. */
  class RecentlyViewedSection {
    var recentProducts: seq<Product>

    constructor ()
      ensures recentProducts == []
    {
      recentProducts := [];
    }

    /** `loadRecentProducts`: a parse failure is logged and the state is kept. */
    method LoadRecentProducts(saved: SavedList)
      modifies this
      ensures recentProducts == if saved.Saved? then saved.products else old(recentProducts)
    {
      if saved.Saved? {
        recentProducts := saved.products;
      }
    }

    /** What the component shows: nothing for an empty list, otherwise the list as stored. */
    function Render(): (shown: Option<seq<Product>>)
      reads this
      ensures shown.None? <==> recentProducts == []
      ensures shown.Some? ==> shown.value == recentProducts
    {
      if |recentProducts| == 0 then None else Some(recentProducts)
    }
  }

  /**
   * Mounting the component: the saved list is shown as stored, unless it is
   * missing, unparseable or empty, in which case nothing is rendered.
   */
  method MountRecentlyViewed(saved: SavedList) returns (shown: Option<seq<Product>>)
    ensures saved.Saved? && saved.products != [] ==> shown == Some(saved.products)
    ensures !saved.Saved? || saved.products == [] ==> shown == None
  {
    var section := new RecentlyViewedSection();
    section.LoadRecentProducts(saved);
    shown := section.Render();
  }
}

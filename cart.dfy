/**
 * The shopping cart of `src/lib/context/CartContext.tsx`: the pure reducer
 * over line items (`cartReducer`), the provider's wrappers around
 * `dispatch`, and the replay that restores a saved cart when the provider
 * mounts. Prices are integer cents.
 */
module CartContext {
  import opened Common

  /** A cart line. Its identity is the triple (id, size, color). */
  datatype CartItem = CartItem(
    id: int,
    name: string,
    price: int,
    quantity: int,
    image: string,
    size: Option<string>,
    color: string)

  datatype LineKey = LineKey(id: int, size: Option<string>, color: string)

  function KeyOf(item: CartItem): LineKey
  {
    LineKey(item.id, item.size, item.color)
  }

  datatype CartState = CartState(items: seq<CartItem>, total: int)

  datatype CartAction =
    | AddItem(payload: CartItem)
    | RemoveItem(id: int)
    | UpdateQuantity(id: int, quantity: int)
    | ClearCart

  /** What a saved cart holds: its lines and the total it had when saved. */
  datatype SavedCart = SavedCart(items: seq<CartItem>, total: int)

  // ----- sums over the lines -----

  /**
   * The sum of `f` over the lines. The source folds from the left
   * (`reduce`); integer addition makes the order irrelevant.
   */
  function SumBy(items: seq<CartItem>, f: CartItem -> int): int
  {
    if items == [] then 0 else f(items[0]) + SumBy(items[1..], f)
  }

  function LineTotal(item: CartItem): int
  {
    item.price * item.quantity
  }

  /** `items.reduce((sum, item) => sum + item.price * item.quantity, 0)` */
  function Total(items: seq<CartItem>): int
  {
    SumBy(items, LineTotal)
  }

  lemma {:induction false} SumByAppend(a: seq<CartItem>, b: seq<CartItem>, f: CartItem -> int)
    ensures SumBy(a + b, f) == SumBy(a, f) + SumBy(b, f)
  {
    if a != [] {
      SumByAppend(a[1..], b, f);
      calc {
        SumBy(a + b, f);
        f((a + b)[0]) + SumBy((a + b)[1..], f);
        { assert (a + b)[0] == a[0]; assert (a + b)[1..] == a[1..] + b; }
        f(a[0]) + SumBy(a[1..] + b, f);
      }
    } else {
      assert a + b == b;
    }
  }

  /** Replacing one line changes the sum by exactly that line's difference. */
  lemma SumByUpdate(items: seq<CartItem>, i: int, x: CartItem, f: CartItem -> int)
    requires 0 <= i < |items|
    ensures SumBy(items[i := x], f) == SumBy(items, f) - f(items[i]) + f(x)
  {
    assert items == items[..i] + [items[i]] + items[i + 1..];
    assert items[i := x] == items[..i] + [x] + items[i + 1..];
    SumByAppend(items[..i] + [items[i]], items[i + 1..], f);
    SumByAppend(items[..i], [items[i]], f);
    SumByAppend(items[..i] + [x], items[i + 1..], f);
    SumByAppend(items[..i], [x], f);
  }

  // ----- line identity -----

  /** Some line of `items` has identity `key`. */
  predicate HasKey(items: seq<CartItem>, key: LineKey)
  {
    exists j :: 0 <= j < |items| && KeyOf(items[j]) == key
  }

  /** No two lines share an identity. */
  ghost predicate KeysDistinct(items: seq<CartItem>)
  {
    DistinctBy(items, KeyOf)
  }

  /** `findIndex` on the identity triple: the first line with `key`, or -1. */
  function FindLine(items: seq<CartItem>, key: LineKey): (r: int)
    ensures -1 <= r < |items|
    ensures r == -1 <==> !HasKey(items, key)
    ensures 0 <= r ==> KeyOf(items[r]) == key && forall j :: 0 <= j < r ==> KeyOf(items[j]) != key
  {
    if items == [] then -1
    else if KeyOf(items[0]) == key then 0
    else
      var k := FindLine(items[1..], key);
      assert forall j :: 1 <= j < |items| ==> items[j] == items[1..][j - 1];
      if k == -1 then -1 else k + 1
  }

  // ----- the reducer -----

  /**
   * ADD_ITEM: a line with the payload's identity gets its quantity raised
   * by the payload's quantity; otherwise the payload is appended.
   */
  function AddLine(items: seq<CartItem>, payload: CartItem): (r: seq<CartItem>)
    ensures !HasKey(items, KeyOf(payload)) ==> r == items + [payload]
    ensures HasKey(items, KeyOf(payload)) ==>
      var i := FindLine(items, KeyOf(payload));
      && |r| == |items|
      && r[i] == items[i].(quantity := items[i].quantity + payload.quantity)
      && forall j :: 0 <= j < |items| && j != i ==> r[j] == items[j]
  {
    var existing := FindLine(items, KeyOf(payload));
    if existing > -1 then
      seq(|items|, index requires 0 <= index < |items| =>
        if index == existing then items[index].(quantity := items[index].quantity + payload.quantity)
        else items[index])
    else
      items + [payload]
  }

  function OtherId(id: int): CartItem -> bool
  {
    (item: CartItem) => item.id != id
  }

  function WithId(id: int): CartItem -> bool
  {
    (item: CartItem) => item.id == id
  }

  /** REMOVE_ITEM: every line with that id goes, whatever its size or color. */
  function RemoveLines(items: seq<CartItem>, id: int): (r: seq<CartItem>)
    ensures forall j :: 0 <= j < |r| ==> r[j].id != id && r[j] in items
    ensures forall j :: 0 <= j < |items| && items[j].id != id ==> items[j] in r
    ensures IsSubsequence(r, items)
    ensures forall x :: multiset(r)[x] == if x.id != id then multiset(items)[x] else 0
  {
    FilterIsSubsequence(items, OtherId(id));
    FilterCounts(items, OtherId(id));
    Filter(items, OtherId(id))
  }

  /** UPDATE_QUANTITY: `quantity` is written to every line with that id. */
  function SetQuantity(items: seq<CartItem>, id: int, quantity: int): (r: seq<CartItem>)
    ensures |r| == |items|
    ensures forall j :: 0 <= j < |items| ==>
      && r[j] == items[j].(quantity := r[j].quantity)
      && r[j].quantity == (if items[j].id == id then quantity else items[j].quantity)
  {
    seq(|items|, j requires 0 <= j < |items| =>
      if items[j].id == id then items[j].(quantity := quantity) else items[j])
  }

  /** The state with `total` recomputed from the lines. */
  function WithTotal(items: seq<CartItem>): (s: CartState)
    ensures s.items == items && s.total == Total(items)
  {
    CartState(items, Total(items))
  }

  /** `cartReducer`: every action recomputes the total from the new lines. */
  function Reduce(state: CartState, action: CartAction): (r: CartState)
    ensures r.total == Total(r.items)
    ensures action.ClearCart? ==> r == CartState([], 0)
  {
    match action
    case AddItem(payload) => WithTotal(AddLine(state.items, payload))
    case RemoveItem(id) => WithTotal(RemoveLines(state.items, id))
    case UpdateQuantity(id, quantity) => WithTotal(SetQuantity(state.items, id, quantity))
    case ClearCart => CartState([], 0)
  }

  // ----- properties of the reducer -----

  /** ADD_ITEM raises the total by the quantity added, priced at the line's own price. */
  lemma AddLineTotal(items: seq<CartItem>, payload: CartItem)
    ensures var i := FindLine(items, KeyOf(payload));
      Total(AddLine(items, payload)) ==
        Total(items) + (if 0 <= i then items[i].price else payload.price) * payload.quantity
  {
    var i := FindLine(items, KeyOf(payload));
    if 0 <= i {
      var x := items[i].(quantity := items[i].quantity + payload.quantity);
      assert AddLine(items, payload) == items[i := x];
      SumByUpdate(items, i, x, LineTotal);
      assert LineTotal(x) == LineTotal(items[i]) + items[i].price * payload.quantity;
    } else {
      SumByAppend(items, [payload], LineTotal);
    }
  }

  /** The total splits into the lines REMOVE_ITEM keeps and the lines it drops. */
  lemma {:induction false} RemoveLinesTotal(items: seq<CartItem>, id: int)
    ensures Total(items) == Total(RemoveLines(items, id)) + Total(Filter(items, WithId(id)))
  {
    if items != [] {
      RemoveLinesTotal(items[1..], id);
      var keep, drop := Filter(items, OtherId(id)), Filter(items, WithId(id));
      if items[0].id == id {
        assert keep == Filter(items[1..], OtherId(id));
        assert drop == [items[0]] + Filter(items[1..], WithId(id));
        assert drop[1..] == Filter(items[1..], WithId(id));
      } else {
        assert keep == [items[0]] + Filter(items[1..], OtherId(id));
        assert keep[1..] == Filter(items[1..], OtherId(id));
        assert drop == Filter(items[1..], WithId(id));
      }
    }
  }

  /** REMOVE_ITEM with an id no line has leaves the lines as they are. */
  lemma RemoveAbsentId(items: seq<CartItem>, id: int)
    requires forall j :: 0 <= j < |items| ==> items[j].id != id
    ensures RemoveLines(items, id) == items
  {
    FilterAll(items, OtherId(id));
  }

  /** Pairwise distinct identities stay pairwise distinct under every action. */
  lemma ReduceKeepsKeysDistinct(state: CartState, action: CartAction)
    requires KeysDistinct(state.items)
    ensures KeysDistinct(Reduce(state, action).items)
  {
    match action
    case AddItem(payload) =>
    case RemoveItem(id) =>
      FilterKeepsDistinctBy(state.items, OtherId(id), KeyOf);
    case UpdateQuantity(id, quantity) =>
    case ClearCart =>
  }

  /** CLEAR_CART applied twice is CLEAR_CART applied once. */
  lemma ClearIdempotent(state: CartState)
    ensures Reduce(Reduce(state, ClearCart), ClearCart) == Reduce(state, ClearCart) == CartState([], 0)
  {
  }

  /**
   * One line added, then the same identity again with quantity 2, then its
   * id removed: totals 35.00, 105.00 and 0.00.
   */
  lemma AddMergeRemoveScenario(shirt: CartItem)
    requires shirt.id == 1 && shirt.price == 3500 && shirt.quantity == 1
    requires shirt.size == Some("M") && shirt.color == "Black"
    ensures var s1 := Reduce(CartState([], 0), AddItem(shirt));
      && s1.total == 3500
      && var s2 := Reduce(s1, AddItem(shirt.(quantity := 2)));
      && s2.items == [shirt.(quantity := 3)] && s2.total == 10500
      && Reduce(s2, RemoveItem(1)) == CartState([], 0)
  {
    var s1 := Reduce(CartState([], 0), AddItem(shirt));
    assert s1.items == [shirt];
    assert [shirt][1..] == [];
    assert Total([shirt]) == LineTotal(shirt) + Total([]);
    var s2 := Reduce(s1, AddItem(shirt.(quantity := 2)));
    assert FindLine(s1.items, KeyOf(shirt)) == 0;
    assert s2.items == [shirt.(quantity := 3)];
    assert s2.items[1..] == [];
    assert Total(s2.items) == LineTotal(shirt.(quantity := 3)) + Total([]);
  }

  // ----- restore on mount -----

  /** The lines after CLEAR_CART followed by ADD_ITEM for each saved line in order. */
  function Replay(lines: seq<CartItem>): (r: seq<CartItem>)
    ensures |r| <= |lines|
    ensures KeysDistinct(r)
  {
    if lines == [] then [] else AddLine(Replay(lines[..|lines| - 1]), lines[|lines| - 1])
  }

  /** The summed quantity of the saved lines with identity `key`. */
  function SumQuantity(lines: seq<CartItem>, key: LineKey): int
  {
    if lines == [] then 0
    else
      var last := lines[|lines| - 1];
      SumQuantity(lines[..|lines| - 1], key) + (if KeyOf(last) == key then last.quantity else 0)
  }

  /** Replaying saved lines whose identities are distinct reproduces them exactly. */
  lemma {:induction false} ReplayDistinct(lines: seq<CartItem>)
    requires KeysDistinct(lines)
    ensures Replay(lines) == lines
  {
    if lines != [] {
      var prefix, last := lines[..|lines| - 1], lines[|lines| - 1];
      assert KeysDistinct(prefix);
      ReplayDistinct(prefix);
      assert !HasKey(prefix, KeyOf(last));
      assert prefix + [last] == lines;
    }
  }

  lemma {:induction false} SumQuantityAbsent(lines: seq<CartItem>, key: LineKey)
    requires !HasKey(lines, key)
    ensures SumQuantity(lines, key) == 0
  {
    if lines != [] {
      var prefix := lines[..|lines| - 1];
      assert !HasKey(prefix, key);
      SumQuantityAbsent(prefix, key);
    }
  }

  lemma HasKeySnoc(items: seq<CartItem>, x: CartItem, key: LineKey)
    ensures HasKey(items + [x], key) <==> HasKey(items, key) || KeyOf(x) == key
  {
    if HasKey(items, key) {
      var j :| 0 <= j < |items| && KeyOf(items[j]) == key;
      assert KeyOf((items + [x])[j]) == key;
    }
    if KeyOf(x) == key {
      assert KeyOf((items + [x])[|items|]) == key;
    }
  }

  lemma SumQuantitySnoc(lines: seq<CartItem>, x: CartItem, key: LineKey)
    ensures SumQuantity(lines + [x], key) ==
      SumQuantity(lines, key) + (if KeyOf(x) == key then x.quantity else 0)
  {
    assert (lines + [x])[..|lines|] == lines;
  }

  /**
   * `r` is what merging `lines` by identity gives: no identity repeats, the
   * identities are exactly those of `lines`, and each line's quantity is the
   * sum of the quantities of the lines of `lines` with its identity.
   */
  ghost predicate MergedFrom(r: seq<CartItem>, lines: seq<CartItem>)
  {
    && KeysDistinct(r)
    && (forall key :: HasKey(r, key) <==> HasKey(lines, key))
    && forall j :: 0 <= j < |r| ==> r[j].quantity == SumQuantity(lines, KeyOf(r[j]))
  }

  /** Appending a line with a new identity keeps the merge invariant. */
  lemma AppendMerges(r: seq<CartItem>, lines: seq<CartItem>, x: CartItem)
    requires MergedFrom(r, lines) && !HasKey(r, KeyOf(x))
    ensures MergedFrom(r + [x], lines + [x])
  {
    SumQuantityAbsent(lines, KeyOf(x));
    forall key
      ensures HasKey(r + [x], key) <==> HasKey(lines + [x], key)
    {
      HasKeySnoc(lines, x, key);
      HasKeySnoc(r, x, key);
    }
    forall j | 0 <= j < |r + [x]|
      ensures (r + [x])[j].quantity == SumQuantity(lines + [x], KeyOf((r + [x])[j]))
    {
      SumQuantitySnoc(lines, x, KeyOf((r + [x])[j]));
    }
  }

  /** Raising the quantity of the line with `x`'s identity keeps the merge invariant. */
  lemma BumpMerges(r: seq<CartItem>, lines: seq<CartItem>, x: CartItem)
    requires MergedFrom(r, lines) && HasKey(r, KeyOf(x))
    ensures MergedFrom(AddLine(r, x), lines + [x])
  {
    var r' := AddLine(r, x);
    var i := FindLine(r, KeyOf(x));
    assert forall j :: 0 <= j < |r| ==> KeyOf(r'[j]) == KeyOf(r[j]);
    forall key
      ensures HasKey(r', key) <==> HasKey(lines + [x], key)
    {
      HasKeySnoc(lines, x, key);
      if HasKey(r, key) {
        var j :| 0 <= j < |r| && KeyOf(r[j]) == key;
        assert KeyOf(r'[j]) == key;
      }
    }
    forall j | 0 <= j < |r'|
      ensures r'[j].quantity == SumQuantity(lines + [x], KeyOf(r'[j]))
    {
      SumQuantitySnoc(lines, x, KeyOf(r'[j]));
      if j != i {
        assert KeyOf(r[j]) != KeyOf(r[i]);
      }
    }
  }

  /**
   * Replaying saved lines collapses lines that share an identity into one
   * line whose quantity is their sum; the identities present are exactly
   * those of the saved lines, and no identity repeats.
   */
  lemma {:induction false} ReplayMerges(lines: seq<CartItem>)
    ensures MergedFrom(Replay(lines), lines)
  {
    if lines != [] {
      var prefix, last := lines[..|lines| - 1], lines[|lines| - 1];
      ReplayMerges(prefix);
      if HasKey(Replay(prefix), KeyOf(last)) {
        BumpMerges(Replay(prefix), prefix, last);
      } else {
        AppendMerges(Replay(prefix), prefix, last);
      }
      assert prefix + [last] == lines;
    }
  }

  // ----- the provider -----

  /** `items.find(item => item.id === id)` */
  function FindById(items: seq<CartItem>, id: int): (r: Option<CartItem>)
    ensures r.None? <==> forall j :: 0 <= j < |items| ==> items[j].id != id
    ensures r.Some? ==> r.value in items && r.value.id == id
  {
    if items == [] then None
    else if items[0].id == id then Some(items[0])
    else
      var r := FindById(items[1..], id);
      assert forall j :: 1 <= j < |items| ==> items[j] == items[1..][j - 1];
      r
  }

  /** Some line has product id `id`, whatever its size or color. */
  predicate HasId(items: seq<CartItem>, id: int)
  {
    exists j :: 0 <= j < |items| && items[j].id == id
  }

  /** The state behind `CartProvider`: `useReducer` state replaced by `dispatch`. */
  class Cart {
    var items: seq<CartItem>
    var total: int

    function State(): CartState
      reads this
    {
      CartState(items, total)
    }

    /** The total agrees with the lines, and no two lines share an identity. */
    ghost predicate Valid()
      reads this
    {
      total == Total(items) && KeysDistinct(items)
    }

    /** `useReducer(cartReducer, { items: [], total: 0 })` */
    constructor ()
      ensures items == [] && total == 0 && Valid()
    {
      items := [];
      total := 0;
    }

    /** `dispatch(action)` */
    method Dispatch(action: CartAction)
      requires Valid()
      modifies this
      ensures State() == Reduce(old(State()), action)
      ensures Valid()
    {
      ReduceKeepsKeysDistinct(State(), action);
      var next := Reduce(State(), action);
      items, total := next.items, next.total;
    }

    /** `addItem`: dispatches ADD_ITEM unconditionally (the toast is left out). */
    method AddItem(item: CartItem)
      requires Valid()
      modifies this
      ensures State() == Reduce(old(State()), CartAction.AddItem(item))
      ensures Valid()
    {
      Dispatch(CartAction.AddItem(item));
    }

    /** `removeItem`: dispatches REMOVE_ITEM only if some line has the id. */
    method RemoveItem(id: int)
      requires Valid()
      modifies this
      ensures HasId(old(items), id) ==> State() == Reduce(old(State()), CartAction.RemoveItem(id))
      ensures !HasId(old(items), id) ==> items == old(items) && total == old(total)
      ensures Valid()
    {
      var item := FindById(items, id);
      if item.Some? {
        Dispatch(CartAction.RemoveItem(id));
      }
    }

    /** `updateQuantity`: dispatches UPDATE_QUANTITY only if some line has the id. */
    method UpdateQuantity(id: int, quantity: int)
      requires Valid()
      modifies this
      ensures HasId(old(items), id) ==> State() == Reduce(old(State()), CartAction.UpdateQuantity(id, quantity))
      ensures !HasId(old(items), id) ==> items == old(items) && total == old(total)
      ensures Valid()
    {
      var item := FindById(items, id);
      if item.Some? {
        Dispatch(CartAction.UpdateQuantity(id, quantity));
      }
    }

    /** `clearCart` */
    method ClearCart()
      requires Valid()
      modifies this
      ensures items == [] && total == 0 && Valid()
    {
      Dispatch(CartAction.ClearCart);
    }

    /**
     * The mount effect: with a saved cart, CLEAR_CART and then ADD_ITEM for
     * each saved line in order. The saved total is never read. `None` is a
     * missing or empty entry, and also one that does not parse: the parse
     * error escapes the effect before anything is dispatched.
     */
    method Restore(saved: Option<SavedCart>)
      requires Valid()
      modifies this
      ensures saved.None? ==> items == old(items) && total == old(total)
      ensures saved.Some? ==> items == Replay(saved.value.items)
      ensures Valid()
    {
      if saved.Some? {
        var lines := saved.value.items;
        Dispatch(CartAction.ClearCart);
        var i := 0;
        while i < |lines|
          invariant 0 <= i <= |lines|
          invariant items == Replay(lines[..i]) && Valid()
        {
          Dispatch(CartAction.AddItem(lines[i]));
          assert lines[..i + 1][..i] == lines[..i];
          i := i + 1;
        }
        assert lines[..|lines|] == lines;
      }
    }
  }
}

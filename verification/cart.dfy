/** The shopping cart of `src/pages/Index.tsx`: a sequence of lines, one
    per product id, and the two updates the page applies to it,
    `handleAddToCart` and `handleRemoveFromCart`. */
module Cart {
  import opened Wrappers
  import opened Catalog

  /** `CartItem`: a product's id, name, price (cents), carbon footprint
      (grams) and rating, with the number of units in the cart. */
  datatype CartItem = CartItem(
    id: string,
    name: string,
    price: nat,
    quantity: nat,
    carbon: nat,
    rating: EcoRating)

  /** The line added for a product that is not in the cart yet. */
  function NewLine(p: Product): CartItem {
    CartItem(p.id, p.name, p.price, 1, p.carbon, p.rating)
  }

  predicate HasId(cart: seq<CartItem>, id: string) {
    exists i :: 0 <= i < |cart| && cart[i].id == id
  }

  /** The invariant of every cart the page builds: ids are pairwise
      distinct and every line holds at least one unit. */
  predicate ValidCart(cart: seq<CartItem>) {
    && (forall i, j :: 0 <= i < j < |cart| ==> cart[i].id != cart[j].id)
    && (forall i :: 0 <= i < |cart| ==> cart[i].quantity >= 1)
  }

  // ---------------------------------------------------------------------
  // Sums over the lines
  // ---------------------------------------------------------------------

  /** The sum of `w` over the lines: the `reduce((sum, item) => sum + …, 0)`
      folds of the page and of the cart summary. */
  function Total(items: seq<CartItem>, w: CartItem -> int): int {
    if items == [] then 0 else w(items[0]) + Total(items[1..], w)
  }

  /** Sums add up over concatenation, so the order of the fold does not
      matter. */
  lemma {:induction false} TotalAppend(a: seq<CartItem>, b: seq<CartItem>, w: CartItem -> int)
    ensures Total(a + b, w) == Total(a, w) + Total(b, w)
  {
    if a != [] {
      assert (a + b)[0] == a[0] && (a + b)[1..] == a[1..] + b;
      TotalAppend(a[1..], b, w);
    } else {
      assert a + b == b;
    }
  }

  /** A sum of non-negative weights is non-negative and bounds the weight
      of each of its lines. */
  lemma {:induction false} TotalBounds(items: seq<CartItem>, w: CartItem -> int)
    requires forall x :: w(x) >= 0
    ensures Total(items, w) >= 0
    ensures forall i :: 0 <= i < |items| ==> w(items[i]) <= Total(items, w)
  {
    if items != [] {
      TotalBounds(items[1..], w);
      assert forall i :: 1 <= i < |items| ==> items[i] == items[1..][i - 1];
    }
  }

  function Quantity(item: CartItem): int {
    item.quantity
  }

  /** The number of units in the cart, as checkout reports it. */
  function TotalQuantity(cart: seq<CartItem>): int {
    Total(cart, Quantity)
  }

  /** Reference reading of a cart as a bag of product ids: how many units
      of `id` it holds, over all lines. */
  function QuantityOf(cart: seq<CartItem>, id: string): (r: nat)
    ensures r > 0 ==> HasId(cart, id)
  {
    if cart == [] then 0
    else (if cart[0].id == id then cart[0].quantity else 0) + QuantityOf(cart[1..], id)
  }

  lemma {:induction false} QuantityOfAppend(a: seq<CartItem>, b: seq<CartItem>, id: string)
    ensures QuantityOf(a + b, id) == QuantityOf(a, id) + QuantityOf(b, id)
  {
    if a != [] {
      assert (a + b)[0] == a[0] && (a + b)[1..] == a[1..] + b;
      QuantityOfAppend(a[1..], b, id);
    } else {
      assert a + b == b;
    }
  }

  /** A cart splits around any of its lines. */
  lemma SplitAt(cart: seq<CartItem>, i: nat)
    requires i < |cart|
    ensures cart == cart[..i] + [cart[i]] + cart[i + 1..]
  {
  }

  /** In a valid cart, a line with `id` is the only one. */
  lemma UniqueLine(cart: seq<CartItem>, i: nat)
    requires ValidCart(cart) && i < |cart|
    ensures !HasId(cart[..i], cart[i].id) && !HasId(cart[i + 1..], cart[i].id)
  {
  }

  /** Sums over a cart split around one line. */
  lemma TotalSplit(a: seq<CartItem>, c: CartItem, b: seq<CartItem>, w: CartItem -> int)
    ensures Total(a + [c] + b, w) == Total(a, w) + w(c) + Total(b, w)
  {
    TotalAppend(a + [c], b, w);
    TotalAppend(a, [c], w);
  }

  lemma QuantityOfSplit(a: seq<CartItem>, c: CartItem, b: seq<CartItem>, id: string)
    ensures QuantityOf(a + [c] + b, id) == QuantityOf(a, id) + (if c.id == id then c.quantity else 0) + QuantityOf(b, id)
  {
    QuantityOfAppend(a + [c], b, id);
    QuantityOfAppend(a, [c], id);
  }

  // ---------------------------------------------------------------------
  // handleAddToCart
  // ---------------------------------------------------------------------

  /** `cartItems.find(item => item.id === id)`: the first line with `id`. */
  function Find(cart: seq<CartItem>, id: string): (r: Option<CartItem>)
    ensures r.Some? <==> HasId(cart, id)
    ensures r.Some? ==>
      exists i :: 0 <= i < |cart| && cart[i] == r.value && r.value.id == id && !HasId(cart[..i], id)
  {
    if cart == [] then None
    else if cart[0].id == id then
      assert cart[..0] == [];
      Some(cart[0])
    else
      var r := Find(cart[1..], id);
      if r.Some? then
        var i :| 0 <= i < |cart[1..]| && cart[1..][i] == r.value && r.value.id == id && !HasId(cart[1..][..i], id);
        assert cart[..i + 1] == [cart[0]] + cart[1..][..i];
        assert cart[i + 1] == r.value;
        r
      else
        r
  }

  /** The same line with one more unit. */
  function Bump(item: CartItem): CartItem {
    item.(quantity := item.quantity + 1)
  }

  /** `handleAddToCart(product)`: when some line has the product's id,
      every line with that id gains a unit; otherwise a new line with one
      unit is appended. */
  function AddToCart(cart: seq<CartItem>, p: Product): (r: seq<CartItem>)
    ensures |r| == if HasId(cart, p.id) then |cart| else |cart| + 1
    ensures forall i :: 0 <= i < |cart| ==> r[i] == cart[i].(quantity := r[i].quantity) && r[i].quantity >= cart[i].quantity
    ensures HasId(r, p.id)
  {
    if Find(cart, p.id).Some? then
      var r := seq(|cart|, i requires 0 <= i < |cart| => if cart[i].id == p.id then Bump(cart[i]) else cart[i]);
      var k :| 0 <= k < |cart| && cart[k].id == p.id;
      assert r[k].id == p.id;
      r
    else
      var r := cart + [NewLine(p)];
      assert r[|cart|].id == p.id;
      r
  }

  /** Adding a product already in a valid cart gives its line exactly one
      more unit and leaves every other line, and the order, as it was. */
  lemma AddExisting(cart: seq<CartItem>, p: Product, i: nat)
    requires ValidCart(cart) && i < |cart| && cart[i].id == p.id
    ensures var r := AddToCart(cart, p);
      && |r| == |cart|
      && r[i] == cart[i].(quantity := cart[i].quantity + 1)
      && forall j :: 0 <= j < |cart| && j != i ==> r[j] == cart[j]
  {
    assert HasId(cart, p.id);
  }

  /** Adding a product not in the cart appends one line holding one unit
      and the product's id, name, price, carbon footprint and rating. */
  lemma AddAbsent(cart: seq<CartItem>, p: Product)
    requires !HasId(cart, p.id)
    ensures var r := AddToCart(cart, p);
      && |r| == |cart| + 1
      && r[..|cart|] == cart
      && r[|cart|].quantity == 1
      && r[|cart|].id == p.id && r[|cart|].name == p.name && r[|cart|].price == p.price
      && r[|cart|].carbon == p.carbon && r[|cart|].rating == p.rating
  {
  }

  /** Adding keeps a cart valid. */
  lemma AddPreservesValid(cart: seq<CartItem>, p: Product)
    requires ValidCart(cart)
    ensures ValidCart(AddToCart(cart, p))
  {
    var r := AddToCart(cart, p);
    if !HasId(cart, p.id) {
      forall i, j | 0 <= i < j < |r|
        ensures r[i].id != r[j].id
      {
        if j == |cart| {
          assert r[i] == cart[i];
        }
      }
    }
  }

  /** Adding a product already in a valid cart replaces its line by the
      same line with one more unit. */
  lemma AddExistingSplit(cart: seq<CartItem>, p: Product, i: nat)
    requires ValidCart(cart) && i < |cart| && cart[i].id == p.id
    ensures AddToCart(cart, p) == cart[..i] + [Bump(cart[i])] + cart[i + 1..]
  {
    AddExisting(cart, p, i);
  }

  /** In the bag reading, adding a product to a valid cart puts in exactly
      one unit of its id and nothing else. */
  lemma AddQuantities(cart: seq<CartItem>, p: Product, id: string)
    requires ValidCart(cart)
    ensures QuantityOf(AddToCart(cart, p), id) == QuantityOf(cart, id) + (if id == p.id then 1 else 0)
  {
    if HasId(cart, p.id) {
      var i :| 0 <= i < |cart| && cart[i].id == p.id;
      AddExistingSplit(cart, p, i);
      SplitAt(cart, i);
      QuantityOfSplit(cart[..i], cart[i], cart[i + 1..], id);
      QuantityOfSplit(cart[..i], Bump(cart[i]), cart[i + 1..], id);
    } else {
      QuantityOfAppend(cart, [NewLine(p)], id);
    }
  }

  /** Adding to a valid cart raises the number of units by exactly one. */
  lemma AddIncrementsTotal(cart: seq<CartItem>, p: Product)
    requires ValidCart(cart)
    ensures TotalQuantity(AddToCart(cart, p)) == TotalQuantity(cart) + 1
  {
    if HasId(cart, p.id) {
      var i :| 0 <= i < |cart| && cart[i].id == p.id;
      AddExistingSplit(cart, p, i);
      SplitAt(cart, i);
      TotalSplit(cart[..i], cart[i], cart[i + 1..], Quantity);
      TotalSplit(cart[..i], Bump(cart[i]), cart[i + 1..], Quantity);
    } else {
      TotalAppend(cart, [NewLine(p)], Quantity);
    }
  }

  // ---------------------------------------------------------------------
  // handleRemoveFromCart
  // ---------------------------------------------------------------------

  /** `handleRemoveFromCart(id)`: `items.filter(item => item.id !== id)`. */
  function RemoveFromCart(cart: seq<CartItem>, id: string): (r: seq<CartItem>)
    ensures forall x :: x in r <==> x in cart && x.id != id
    ensures |r| <= |cart|
    ensures !HasId(r, id)
  {
    if cart == [] then []
    else
      var rest := RemoveFromCart(cart[1..], id);
      assert forall x :: x in cart <==> x == cart[0] || x in cart[1..];
      if cart[0].id == id then rest else [cart[0]] + rest
  }

  /** Removing an id the cart does not hold changes nothing. */
  lemma {:induction false} RemoveAbsent(cart: seq<CartItem>, id: string)
    requires !HasId(cart, id)
    ensures RemoveFromCart(cart, id) == cart
  {
    if cart != [] {
      assert cart[0].id != id;
      assert !HasId(cart[1..], id);
      RemoveAbsent(cart[1..], id);
      assert cart == [cart[0]] + cart[1..];
    }
  }

  /** Removing works stretch by stretch, so the kept lines stay in their
      original order. */
  lemma {:induction false} RemoveAppend(a: seq<CartItem>, b: seq<CartItem>, id: string)
    ensures RemoveFromCart(a + b, id) == RemoveFromCart(a, id) + RemoveFromCart(b, id)
  {
    if a != [] {
      assert (a + b)[0] == a[0];
      assert (a + b)[1..] == a[1..] + b;
      RemoveAppend(a[1..], b, id);
    } else {
      assert a + b == b;
    }
  }

  /** Removing keeps a cart valid. */
  lemma {:induction false} RemovePreservesValid(cart: seq<CartItem>, id: string)
    requires ValidCart(cart)
    ensures ValidCart(RemoveFromCart(cart, id))
  {
    if cart != [] {
      var rest := RemoveFromCart(cart[1..], id);
      RemovePreservesValid(cart[1..], id);
      if cart[0].id != id {
        assert !HasId(rest, cart[0].id);
        var r := [cart[0]] + rest;
        forall i | 0 <= i < |r|
          ensures r[i].quantity >= 1
        {
          if i > 0 {
            assert r[i] in cart;
          }
        }
      }
    }
  }

  /** In the bag reading, removing `id` takes out all of its units and
      keeps every other id's. */
  lemma {:induction false} RemoveQuantities(cart: seq<CartItem>, id: string, other: string)
    ensures QuantityOf(RemoveFromCart(cart, id), other) == if other == id then 0 else QuantityOf(cart, other)
  {
    if other != id && cart != [] {
      RemoveQuantities(cart[1..], id, other);
      if cart[0].id != id {
        assert ([cart[0]] + RemoveFromCart(cart[1..], id))[1..] == RemoveFromCart(cart[1..], id);
      }
    }
  }

  /** Removing the id of line `i` of a valid cart drops exactly that
      line. */
  lemma RemoveOnlyLine(cart: seq<CartItem>, i: nat)
    requires ValidCart(cart) && i < |cart|
    ensures RemoveFromCart(cart, cart[i].id) == cart[..i] + cart[i + 1..]
  {
    UniqueLine(cart, i);
    SplitAt(cart, i);
    RemoveSplit(cart[..i], cart[i], cart[i + 1..]);
  }

  lemma RemoveSplit(a: seq<CartItem>, c: CartItem, b: seq<CartItem>)
    requires !HasId(a, c.id) && !HasId(b, c.id)
    ensures RemoveFromCart(a + [c] + b, c.id) == a + b
  {
    var id := c.id;
    RemoveAbsent(a, id);
    RemoveAbsent(b, id);
    assert [c][1..] == [];
    assert RemoveFromCart([c], id) == [];
    RemoveAppend(a, [c], id);
    assert RemoveFromCart(a + [c], id) == a;
    RemoveAppend(a + [c], b, id);
  }

  /** Removing the line at index `i` of a valid cart lowers any sum over
      the lines by that line's share. */
  lemma RemoveLine(cart: seq<CartItem>, i: nat, w: CartItem -> int)
    requires ValidCart(cart) && i < |cart|
    ensures Total(RemoveFromCart(cart, cart[i].id), w) == Total(cart, w) - w(cart[i])
  {
    RemoveOnlyLine(cart, i);
    SplitAt(cart, i);
    TotalAppend(cart[..i], cart[i + 1..], w);
    TotalSplit(cart[..i], cart[i], cart[i + 1..], w);
  }
}

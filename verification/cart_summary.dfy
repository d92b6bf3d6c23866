/** The figures `src/components/CartSummary.tsx` derives from the cart:
    total price, total carbon footprint, the eco score (the percentage of
    lines rated `high`, rounded) and the colour and message bands chosen
    from the score. */
module CartSummary {
  import opened Catalog
  import opened Cart

  // ---------------------------------------------------------------------
  // Totals
  // ---------------------------------------------------------------------

  function LinePrice(item: CartItem): int {
    item.price * item.quantity
  }

  function LineCarbon(item: CartItem): int {
    item.carbon * item.quantity
  }

  lemma LineWeightsNonNegative()
    ensures forall x :: LinePrice(x) >= 0 && LineCarbon(x) >= 0
  {
  }

  /** `totalPrice`, in cents: never negative, and at least the price of
      any one line. */
  function TotalPrice(items: seq<CartItem>): (r: int)
    ensures r >= 0
    ensures forall i :: 0 <= i < |items| ==> LinePrice(items[i]) <= r
  {
    LineWeightsNonNegative();
    TotalBounds(items, LinePrice);
    Total(items, LinePrice)
  }

  /** `totalCarbon`, in grams: never negative, and at least the footprint
      of any one line. */
  function TotalCarbon(items: seq<CartItem>): (r: int)
    ensures r >= 0
    ensures forall i :: 0 <= i < |items| ==> LineCarbon(items[i]) <= r
  {
    LineWeightsNonNegative();
    TotalBounds(items, LineCarbon);
    Total(items, LineCarbon)
  }

  /** Both totals are additive over the lines. */
  lemma TotalsAdditive(a: seq<CartItem>, b: seq<CartItem>)
    ensures TotalPrice(a + b) == TotalPrice(a) + TotalPrice(b)
    ensures TotalCarbon(a + b) == TotalCarbon(a) + TotalCarbon(b)
  {
    TotalAppend(a, b, LinePrice);
    TotalAppend(a, b, LineCarbon);
  }

  /** Removing a line from a valid cart lowers the total price by that
      line's price times quantity, and the total carbon by its carbon
      footprint times quantity. */
  lemma RemoveLowersTotals(cart: seq<CartItem>, i: nat)
    requires ValidCart(cart) && i < |cart|
    ensures TotalPrice(RemoveFromCart(cart, cart[i].id)) == TotalPrice(cart) - cart[i].price * cart[i].quantity
    ensures TotalCarbon(RemoveFromCart(cart, cart[i].id)) == TotalCarbon(cart) - cart[i].carbon * cart[i].quantity
  {
    RemoveLine(cart, i, LinePrice);
    RemoveLine(cart, i, LineCarbon);
  }

  // ---------------------------------------------------------------------
  // Eco score
  // ---------------------------------------------------------------------

  /** `items.filter(item => item.ecoRating === 'high')`. */
  function HighRated(items: seq<CartItem>): (r: seq<CartItem>)
    ensures |r| <= |items|
    ensures forall x :: x in r <==> x in items && x.rating == High
  {
    if items == [] then []
    else
      var rest := HighRated(items[1..]);
      assert forall x :: x in items <==> x == items[0] || x in items[1..];
      if items[0].rating == High then [items[0]] + rest else rest
  }

  /** The filter works line by line: it distributes over concatenation. */
  lemma {:induction false} HighRatedAppend(a: seq<CartItem>, b: seq<CartItem>)
    ensures HighRated(a + b) == HighRated(a) + HighRated(b)
  {
    if a == [] {
      assert a + b == b;
    } else {
      assert (a + b)[0] == a[0] && (a + b)[1..] == a[1..] + b;
      HighRatedAppend(a[1..], b);
    }
  }

  /** A single line is kept exactly when it is rated `high`; with
      `HighRatedAppend` this fixes the filter, and so the count of kept
      lines, for every cart. */
  lemma HighRatedSingle(x: CartItem)
    ensures HighRated([x]) == if x.rating == High then [x] else []
  {
    assert [x][1..] == [];
  }

  /** Every line is rated `high` exactly when the filter keeps all lines. */
  lemma {:induction false} AllHighIff(items: seq<CartItem>)
    ensures |HighRated(items)| == |items| <==> forall x | x in items :: x.rating == High
  {
    if items != [] {
      AllHighIff(items[1..]);
      assert forall x :: x in items <==> x == items[0] || x in items[1..];
    }
  }

  /** The filter keeps only the line ratings: carts whose lines carry the
      same ratings, whatever their quantities, keep as many lines. */
  lemma {:induction false} HighRatedByRatings(a: seq<CartItem>, b: seq<CartItem>)
    requires |a| == |b| && forall i :: 0 <= i < |a| ==> a[i].rating == b[i].rating
    ensures |HighRated(a)| == |HighRated(b)|
  {
    if a != [] {
      HighRatedByRatings(a[1..], b[1..]);
    }
  }

  /** `Math.round(num / den)` for non-negative operands, computed exactly:
      the nearest integer, halves rounded up. */
  function RoundHalfUp(num: nat, den: nat): (r: nat)
    requires den > 0
    ensures 2 * den * r <= 2 * num + den < 2 * den * (r + 1)
  {
    var q := (2 * num + den) / (2 * den);
    DivBounds(2 * num + den, 2 * den);
    q
  }

  lemma DivBounds(x: nat, d: nat)
    requires d > 0
    ensures d * (x / d) <= x < d * (x / d + 1)
  {
  }

  /** `ecoScore`: 0 for an empty cart; otherwise the share of lines rated
      `high`, as a percentage rounded to the nearest integer, halves up. */
  function EcoScore(items: seq<CartItem>): (r: nat)
    ensures r <= 100
    ensures items == [] ==> r == 0
    ensures items != [] ==>
      var n, h := |items|, |HighRated(items)|;
      2 * n * r <= 200 * h + n < 2 * n * (r + 1)
  {
    if |items| > 0 then
      var n, h := |items|, |HighRated(items)|;
      var r := RoundHalfUp(100 * h, n);
      ScoreAtMost100(n, h, r);
      r
    else
      0
  }

  lemma ScoreAtMost100(n: nat, h: nat, r: nat)
    requires 0 < n && h <= n && 2 * n * r <= 200 * h + n
    ensures r <= 100
  {
    assert 2 * n * r <= 2 * n * 100 + n;
  }

  /** The score counts lines, not units: two carts whose lines carry the
      same ratings have the same score. */
  lemma EcoScoreIgnoresQuantities(a: seq<CartItem>, b: seq<CartItem>)
    requires |a| == |b| && forall i :: 0 <= i < |a| ==> a[i].rating == b[i].rating
    ensures EcoScore(a) == EcoScore(b)
  {
    HighRatedByRatings(a, b);
  }

  /** So adding another unit of a product already in the cart leaves the
      score as it was. */
  lemma AddExistingKeepsScore(cart: seq<CartItem>, p: Product)
    requires HasId(cart, p.id)
    ensures EcoScore(AddToCart(cart, p)) == EcoScore(cart)
  {
    var r := AddToCart(cart, p);
    assert forall i :: 0 <= i < |cart| ==> r[i].rating == cart[i].rating;
    EcoScoreIgnoresQuantities(r, cart);
  }

  lemma MulLe(a: int, b: int, c: int)
    requires a <= b && c >= 0
    ensures a * c <= b * c
  {
  }

  /** At most one integer `r` has `x` in `[d * r, d * (r + 1))`. */
  lemma RoundUnique(x: int, d: int, r: int, k: int)
    requires d > 0
    requires d * r <= x < d * (r + 1)
    requires d * k <= x < d * (k + 1)
    ensures r == k
  {
    if r < k {
      MulLe(r + 1, k, d);
      assert false;
    } else if k < r {
      MulLe(k + 1, r, d);
      assert false;
    }
  }

  /** The rounded percentage of `h` out of `n` is 100 exactly when `h` is
      all of `n`, provided `n` is below 200. */
  lemma Rounded100(n: nat, h: nat, r: nat)
    requires 0 < n < 200 && h <= n
    requires 2 * n * r <= 200 * h + n < 2 * n * (r + 1)
    ensures r == 100 <==> h == n
  {
    if h == n {
      RoundUnique(200 * h + n, 2 * n, r, 100);
    } else {
      assert 200 * h + n < 2 * n * 100;
    }
  }

  /** The rounded percentage of `h` out of `n` is 0 exactly when `h` is 0,
      provided `n` is at most 200. */
  lemma Rounded0(n: nat, h: nat, r: nat)
    requires 0 < n <= 200 && h <= n
    requires 2 * n * r <= 200 * h + n < 2 * n * (r + 1)
    ensures r == 0 <==> h == 0
  {
    if h == 0 {
      RoundUnique(200 * h + n, 2 * n, r, 0);
    } else {
      assert 200 * h + n >= 2 * n * (0 + 1);
    }
  }

  /** No line is rated `high` exactly when the filter keeps none. */
  lemma NoHighIff(items: seq<CartItem>)
    ensures |HighRated(items)| == 0 <==> forall x | x in items :: x.rating != High
  {
    if |HighRated(items)| > 0 {
      assert HighRated(items)[0] in HighRated(items);
    }
  }

  /** For carts of fewer than 200 lines, the score is 100 exactly when the
      cart is non-empty and every line is rated `high`. */
  lemma EcoScore100Iff(items: seq<CartItem>)
    requires |items| < 200
    ensures EcoScore(items) == 100 <==> items != [] && forall x | x in items :: x.rating == High
  {
    AllHighIff(items);
    if items != [] {
      Rounded100(|items|, |HighRated(items)|, EcoScore(items));
    }
  }

  /** For carts of at most 200 lines, the score is 0 exactly when the cart
      is empty or no line is rated `high`. */
  lemma EcoScore0Iff(items: seq<CartItem>)
    requires |items| <= 200
    ensures EcoScore(items) == 0 <==> items == [] || forall x | x in items :: x.rating != High
  {
    NoHighIff(items);
    if items != [] {
      Rounded0(|items|, |HighRated(items)|, EcoScore(items));
    }
  }

  /** The line bounds above are tight: 199 `high` lines out of 200 already
      round to a score of 100. */
  lemma RoundingReaches100()
    ensures RoundHalfUp(100 * 199, 200) == 100
  {
  }

  // ---------------------------------------------------------------------
  // Colour and message bands
  // ---------------------------------------------------------------------

  const Positive := "eco-positive"
  const Warning := "eco-warning"
  const Negative := "eco-negative"

  const Excellent := "Excellent eco choices! \U{F0}\U{178}\U{152}\U{B1}"
  const GoodProgress := "Good progress! Consider more eco options"
  const TryAlternatives := "Try adding more sustainable alternatives"

  /** `getEcoScoreColor(score)`. */
  function EcoScoreColor(score: int): (r: string)
    ensures r == Positive <==> score >= 70
    ensures r == Warning <==> 40 <= score < 70
    ensures r == Negative <==> score < 40
  {
    if score >= 70 then Positive
    else if score >= 40 then Warning
    else Negative
  }

  /** `getEcoScoreMessage(score)`. */
  function EcoScoreMessage(score: int): (r: string)
    ensures r == Excellent <==> score >= 70
    ensures r == GoodProgress <==> 40 <= score < 70
    ensures r == TryAlternatives <==> score < 40
  {
    if score >= 70 then Excellent
    else if score >= 40 then GoodProgress
    else TryAlternatives
  }

  /** The position of a colour band, from worst to best. */
  function BandRank(color: string): nat {
    if color == Positive then 2 else if color == Warning then 1 else 0
  }

  /** A higher score never lands in a worse colour band. */
  lemma ColorMonotone(s: int, t: int)
    requires s <= t
    ensures BandRank(EcoScoreColor(s)) <= BandRank(EcoScoreColor(t))
  {
  }

  /** The message and the colour always come from the same band. */
  lemma MessageMatchesColor(score: int)
    ensures EcoScoreColor(score) == Positive <==> EcoScoreMessage(score) == Excellent
    ensures EcoScoreColor(score) == Warning <==> EcoScoreMessage(score) == GoodProgress
    ensures EcoScoreColor(score) == Negative <==> EcoScoreMessage(score) == TryAlternatives
  {
  }
}

/** The store map of `src/utils/voiceCommands.ts`: eight numbered aisles,
    each with a name and an ordered list of items, and `findItemLocation`,
    which answers "which aisle holds this item" by a first-match search. */
module StoreMap {
  import opened Wrappers
  import opened Strings

  datatype Aisle = Aisle(number: nat, name: string, items: seq<string>)

  /** What `findItemLocation` returns: the aisle number, the aisle name and
      the catalogue item that matched. */
  datatype Location = Location(aisle: nat, name: string, item: string)

  /** `STORE_MAP.aisles`, in the order `Object.entries` visits its
      integer-like keys, which is ascending numeric order. */
  const Aisles: seq<Aisle> := [
    Aisle(1, "Fresh Produce", ["organic apples", "bananas", "lettuce", "carrots"]),
    Aisle(2, "Dairy & Eggs", ["almond milk", "oat milk", "organic milk", "yogurt", "cheese"]),
    Aisle(3, "Bakery", ["organic bread", "whole grain bread", "croissants", "bagels"]),
    Aisle(4, "Pantry Staples", ["pasta", "rice", "quinoa", "canned beans"]),
    Aisle(5, "Health & Beauty", ["sulfate-free shampoo", "natural soap", "toothpaste"]),
    Aisle(6, "Cleaning Supplies", ["eco detergent", "plant-based cleaner", "dish soap"]),
    Aisle(7, "Frozen Foods", ["frozen vegetables", "plant-based meals", "ice cream"]),
    Aisle(8, "Beverages", ["kombucha", "organic juice", "herbal tea"])
  ]

  /** The aisle table is listed by strictly increasing aisle number, so
      "first in the table" and "lowest aisle number" coincide. */
  lemma AislesAscending()
    ensures forall a, b :: 0 <= a < b < |Aisles| ==> Aisles[a].number < Aisles[b].number
    ensures forall a :: 0 <= a < |Aisles| ==> Aisles[a].number == a + 1
  {
  }

  /** The test `findItemLocation` applies to one item: after lower-casing,
      either string contains the other. `query` is already lower case. */
  predicate ItemMatches(item: string, query: string) {
    Contains(Lower(item), query) || Contains(query, Lower(item))
  }

  /** `items.find(...)` with the matching rule, as the index of the item found. */
  function FirstMatch(items: seq<string>, query: string): (r: Option<nat>)
    ensures r.Some? ==>
      && r.value < |items|
      && ItemMatches(items[r.value], query)
      && forall j :: 0 <= j < r.value ==> !ItemMatches(items[j], query)
    ensures r.None? ==> forall j :: 0 <= j < |items| ==> !ItemMatches(items[j], query)
  {
    if items == [] then None
    else if ItemMatches(items[0], query) then Some(0)
    else match FirstMatch(items[1..], query)
      case None => None
      case Some(i) => Some(i + 1)
  }

  /** Position of a hit in an aisle table: aisle index, item index. */
  datatype Hit = Hit(aisle: nat, item: nat)

  /** No item of the aisles before index `a` matches `query`. */
  ghost predicate NoHitBefore(aisles: seq<Aisle>, query: string, a: int) {
    forall b, i :: 0 <= b < a && b < |aisles| && 0 <= i < |aisles[b].items| ==>
      !ItemMatches(aisles[b].items[i], query)
  }

  /** `h` is the first hit: the first matching item of the first aisle that
      has one. */
  ghost predicate IsFirstHit(aisles: seq<Aisle>, query: string, h: Hit) {
    && h.aisle < |aisles|
    && h.item < |aisles[h.aisle].items|
    && ItemMatches(aisles[h.aisle].items[h.item], query)
    && NoHitBefore(aisles, query, h.aisle)
    && forall j :: 0 <= j < h.item ==> !ItemMatches(aisles[h.aisle].items[j], query)
  }

  /** The loop of `findItemLocation` over the aisles. */
  function FindHit(aisles: seq<Aisle>, query: string): (r: Option<Hit>)
    ensures r.Some? ==> IsFirstHit(aisles, query, r.value)
    ensures r.None? ==> NoHitBefore(aisles, query, |aisles|)
  {
    if aisles == [] then None
    else match FirstMatch(aisles[0].items, query)
      case Some(i) => Some(Hit(0, i))
      case None =>
        match FindHit(aisles[1..], query)
        case None => None
        case Some(h) => Some(Hit(h.aisle + 1, h.item))
  }

  /** The first hit is unique, so any hit shown to be first is the one found. */
  lemma FindHitIsFirstHit(aisles: seq<Aisle>, query: string, h: Hit)
    requires IsFirstHit(aisles, query, h)
    ensures FindHit(aisles, query) == Some(h)
  {
  }

  /** `STORE_MAP.findItemLocation(itemName)`: `None` plays the part of `null`. */
  function FindItemLocation(itemName: string): (r: Option<Location>)
    ensures r.None? <==> NoHitBefore(Aisles, Lower(itemName), |Aisles|)
    ensures r.Some? ==>
      exists h :: IsFirstHit(Aisles, Lower(itemName), h)
        && r.value == Location(Aisles[h.aisle].number, Aisles[h.aisle].name, Aisles[h.aisle].items[h.item])
    ensures r.Some? ==> 1 <= r.value.aisle <= |Aisles| && r.value.item in Aisles[r.value.aisle - 1].items
  {
    AislesAscending();
    match FindHit(Aisles, Lower(itemName))
    case None => None
    case Some(h) =>
      Some(Location(Aisles[h.aisle].number, Aisles[h.aisle].name, Aisles[h.aisle].items[h.item]))
  }

  /** The location found lies in the lowest-numbered aisle that has a
      matching item, and is that aisle's first matching item. */
  lemma FindItemLocationLowestAisle(itemName: string)
    requires FindItemLocation(itemName).Some?
    ensures var loc := FindItemLocation(itemName).value;
      && 1 <= loc.aisle <= |Aisles|
      && loc.item in Aisles[loc.aisle - 1].items
      && ItemMatches(loc.item, Lower(itemName))
      && forall b, i :: 0 <= b < |Aisles| && Aisles[b].number < loc.aisle && 0 <= i < |Aisles[b].items| ==>
           !ItemMatches(Aisles[b].items[i], Lower(itemName))
  {
    AislesAscending();
    var h := FindHit(Aisles, Lower(itemName)).value;
    assert Aisles[h.aisle].number == h.aisle + 1;
  }

  // ---------------------------------------------------------------------
  // Evaluating the search on the concrete table
  // ---------------------------------------------------------------------

  /** No item from index `i` on matches `query`. Stated recursively so
      that facts about single items of the concrete table combine cheaply. */
  predicate MissesFrom(items: seq<string>, query: string, i: nat)
    decreases |items| - i
  {
    i >= |items| || (!ItemMatches(items[i], query) && MissesFrom(items, query, i + 1))
  }

  lemma {:induction false} MissesFromMeaning(items: seq<string>, query: string, i: nat)
    requires MissesFrom(items, query, i)
    ensures forall j :: i <= j < |items| ==> !ItemMatches(items[j], query)
    decreases |items| - i
  {
    if i < |items| {
      MissesFromMeaning(items, query, i + 1);
    }
  }

  /** An item misses a query when some letter of the query occurs in the
      item in neither case, and the lower-cased item is not part of the query. */
  lemma MissByLetter(item: string, query: string, c: char)
    requires c in query && c !in item && UpperChar(c) !in item
    requires CannotBeContainedLowered(item, query)
    ensures !ItemMatches(item, query)
  {
    NotInLower(item, c);
    NotContainsByChar(Lower(item), query, c);
    CannotBeContainedLoweredSound(item, query);
  }

  /** Extends "no hit in the first `a` aisles" by one aisle. */
  lemma NoHitExtend(query: string, a: nat)
    requires a < |Aisles|
    requires NoHitBefore(Aisles, query, a)
    requires MissesFrom(Aisles[a].items, query, 0)
    ensures NoHitBefore(Aisles, query, a + 1)
  {
    MissesFromMeaning(Aisles[a].items, query, 0);
  }

  /** Establishes a first hit from facts that can be checked on the
      concrete table: no hit in earlier aisles, misses before the item, and
      the lower-case query occurs in the item at offset `k`. */
  lemma FirstHitAt(query: string, a: nat, i: nat, k: nat)
    requires a < |Aisles| && i < |Aisles[a].items|
    requires NoHitBefore(Aisles, query, a)
    requires forall j :: 0 <= j < i ==> !ItemMatches(Aisles[a].items[j], query)
    requires IsLowerCase(query)
    requires k + |query| <= |Aisles[a].items[i]| && Aisles[a].items[i][k..k + |query|] == query
    ensures IsFirstHit(Aisles, query, Hit(a, i))
  {
    OccursInLower(Aisles[a].items[i], query, k);
    ContainsWitness(Lower(Aisles[a].items[i]), query, k);
  }

  /** Reads off the location of a first hit, for a lower-case query. */
  lemma LocationOfFirstHit(query: string, h: Hit)
    requires IsLowerCase(query)
    requires IsFirstHit(Aisles, query, h)
    ensures FindItemLocation(query)
      == Some(Location(Aisles[h.aisle].number, Aisles[h.aisle].name, Aisles[h.aisle].items[h.item]))
  {
    LowerOfLowerCase(query);
    FindHitIsFirstHit(Aisles, query, h);
  }

  /** A lower-case query that occurs in some catalogue item, at offset `k`,
      is found. */
  lemma FoundVia(query: string, a: nat, i: nat, k: nat)
    requires a < |Aisles| && i < |Aisles[a].items|
    requires IsLowerCase(query)
    requires k + |query| <= |Aisles[a].items[i]| && Aisles[a].items[i][k..k + |query|] == query
    ensures FindItemLocation(query).Some?
  {
    var item := Aisles[a].items[i];
    LowerOfLowerCase(query);
    OccursInLower(item, query, k);
    ContainsWitness(Lower(item), query, k);
    assert ItemMatches(item, Lower(query));
  }

  // "soap" names items of aisle 5 ("natural soap") and aisle 6 ("dish
  // soap"); the search stops at aisle 5. The facts are split into small
  // lemmas so that each evaluates only a few concrete strings.

  lemma ApplesLowerCase()
    ensures Lower("organic apples") == "organic apples"
  {
    LowerOfLowerCase("organic apples");
  }

  lemma ApplesLackSoap()
    ensures !Contains("organic apples", "soap")
  {
    assert !ContainsFrom("organic apples", "soap", 7);
  }

  lemma SoapMissesApples()
    ensures !ItemMatches(Aisles[0].items[0], "soap")
  {
    ApplesLowerCase();
    ApplesLackSoap();
    assert Aisles[0].items[0] == "organic apples";
  }

  lemma SoapMissesProduceRest()
    ensures !ItemMatches(Aisles[0].items[1], "soap")
    ensures !ItemMatches(Aisles[0].items[2], "soap")
    ensures !ItemMatches(Aisles[0].items[3], "soap")
  {
    MissByLetter(Aisles[0].items[1], "soap", 'o');
    MissByLetter(Aisles[0].items[2], "soap", 'o');
    MissByLetter(Aisles[0].items[3], "soap", 'p');
  }

  lemma SoapMissesProduce()
    ensures MissesFrom(Aisles[0].items, "soap", 0)
  {
    SoapMissesApples();
    SoapMissesProduceRest();
  }

  lemma SoapMissesDairyStart()
    ensures !ItemMatches(Aisles[1].items[0], "soap")
    ensures !ItemMatches(Aisles[1].items[1], "soap")
  {
    MissByLetter(Aisles[1].items[0], "soap", 's');
    MissByLetter(Aisles[1].items[1], "soap", 's');
  }

  lemma SoapMissesDairyEnd()
    ensures !ItemMatches(Aisles[1].items[2], "soap")
    ensures !ItemMatches(Aisles[1].items[3], "soap")
    ensures !ItemMatches(Aisles[1].items[4], "soap")
  {
    MissByLetter(Aisles[1].items[2], "soap", 's');
    MissByLetter(Aisles[1].items[3], "soap", 's');
    MissByLetter(Aisles[1].items[4], "soap", 'o');
  }

  lemma SoapMissesDairy()
    ensures MissesFrom(Aisles[1].items, "soap", 0)
  {
    SoapMissesDairyStart();
    SoapMissesDairyEnd();
  }

  lemma SoapMissesBakeryStart()
    ensures !ItemMatches(Aisles[2].items[0], "soap")
    ensures !ItemMatches(Aisles[2].items[1], "soap")
  {
    MissByLetter(Aisles[2].items[0], "soap", 's');
    MissByLetter(Aisles[2].items[1], "soap", 's');
  }

  lemma SoapMissesBakeryEnd()
    ensures !ItemMatches(Aisles[2].items[2], "soap")
    ensures !ItemMatches(Aisles[2].items[3], "soap")
  {
    MissByLetter(Aisles[2].items[2], "soap", 'p');
    MissByLetter(Aisles[2].items[3], "soap", 'o');
  }

  lemma SoapMissesBakery()
    ensures MissesFrom(Aisles[2].items, "soap", 0)
  {
    SoapMissesBakeryStart();
    SoapMissesBakeryEnd();
  }

  lemma SoapMissesPantryStart()
    ensures !ItemMatches(Aisles[3].items[0], "soap")
    ensures !ItemMatches(Aisles[3].items[1], "soap")
  {
    MissByLetter(Aisles[3].items[0], "soap", 'o');
    MissByLetter(Aisles[3].items[1], "soap", 's');
  }

  lemma SoapMissesPantryEnd()
    ensures !ItemMatches(Aisles[3].items[2], "soap")
    ensures !ItemMatches(Aisles[3].items[3], "soap")
  {
    MissByLetter(Aisles[3].items[2], "soap", 's');
    MissByLetter(Aisles[3].items[3], "soap", 'o');
  }

  lemma SoapMissesPantry()
    ensures MissesFrom(Aisles[3].items, "soap", 0)
  {
    SoapMissesPantryStart();
    SoapMissesPantryEnd();
  }

  /** No item of the first four aisles matches "soap", built up one aisle
      at a time. */
  lemma SoapMissesAisle1()
    ensures NoHitBefore(Aisles, "soap", 1)
  {
    SoapMissesProduce();
    NoHitExtend("soap", 0);
  }

  lemma SoapMissesAisles1To2()
    ensures NoHitBefore(Aisles, "soap", 2)
  {
    SoapMissesAisle1();
    SoapMissesDairy();
    NoHitExtend("soap", 1);
  }

  lemma SoapMissesAisles1To3()
    ensures NoHitBefore(Aisles, "soap", 3)
  {
    SoapMissesAisles1To2();
    SoapMissesBakery();
    NoHitExtend("soap", 2);
  }

  lemma SoapMissesAisles1To4()
    ensures NoHitBefore(Aisles, "soap", 4)
  {
    SoapMissesAisles1To3();
    SoapMissesPantry();
    NoHitExtend("soap", 3);
  }

  lemma ShampooLowerCase()
    ensures Lower("sulfate-free shampoo") == "sulfate-free shampoo"
  {
    LowerOfLowerCase("sulfate-free shampoo");
  }

  lemma ShampooLacksSoapFrom5()
    ensures !ContainsFrom("sulfate-free shampoo", "soap", 5)
  {
    assert !ContainsFrom("sulfate-free shampoo", "soap", 11);
  }

  lemma ShampooLacksSoap()
    ensures !Contains("sulfate-free shampoo", "soap")
  {
    ShampooLacksSoapFrom5();
  }

  lemma SoapMissesShampoo()
    ensures !ItemMatches(Aisles[4].items[0], "soap")
  {
    ShampooLowerCase();
    ShampooLacksSoap();
    assert Aisles[4].items[0] == "sulfate-free shampoo";
  }

  /** "natural soap" is the first hit for "soap". */
  lemma SoapFirstHit()
    ensures IsFirstHit(Aisles, "soap", Hit(4, 1))
  {
    SoapMissesAisles1To4();
    SoapMissesShampoo();
    FirstHitAt("soap", 4, 1, 8);
  }

  lemma HealthAndBeauty()
    ensures Aisles[4].number == 5 && Aisles[4].name == "Health & Beauty"
    ensures Aisles[4].items[1] == "natural soap"
  {
  }

  /** `findItemLocation("soap")` answers with aisle 5 and "natural soap",
      not with the "dish soap" of aisle 6. */
  lemma SoapLocation()
    ensures FindItemLocation("soap") == Some(Location(5, "Health & Beauty", "natural soap"))
  {
    SoapFirstHit();
    LocationOfFirstHit("soap", Hit(4, 1));
    HealthAndBeauty();
  }
}

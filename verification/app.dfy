/** The page state of `src/pages/Index.tsx` and the handlers that change
    it: a barcode scan, a voice command (with the view it switches to and
    the follow-up scan it may trigger), checkout, and the page's own copy
    of the eco score. */
module App {
  import opened Wrappers
  import opened Strings
  import opened StoreMap
  import opened Catalog
  import opened Cart
  import opened CartSummary
  import opened VoiceCommands
  import opened Scanner

  /** `currentView`. */
  datatype View = Home | ScannerView | CartView

  /** The page's `useState` hooks. */
  datatype PageState = PageState(
    isListening: bool,
    isScanning: bool,
    cart: seq<CartItem>,
    current: Option<Product>,
    alternatives: seq<Product>,
    view: View)

  /** The state the page starts in. */
  const Initial := PageState(false, false, [], None, [], Home)

  // ---------------------------------------------------------------------
  // handleProductScanned
  // ---------------------------------------------------------------------

  /** `ids.map(id => ECO_ALTERNATIVES[id]).filter(Boolean)`: the
      alternatives the ids name, in order, skipping unknown ids. */
  function ResolveAlternatives(ids: seq<string>): (r: seq<Product>)
    ensures |r| <= |ids|
    ensures forall p :: p in r <==> exists id :: id in ids && id in EcoAlternatives && EcoAlternatives[id] == p
  {
    if ids == [] then []
    else
      var rest := ResolveAlternatives(ids[1..]);
      assert forall id :: id in ids <==> id == ids[0] || id in ids[1..];
      if ids[0] in EcoAlternatives then [EcoAlternatives[ids[0]]] + rest else rest
  }

  /** Resolution works id by id, so it keeps the order of the ids. */
  lemma {:induction false} ResolveAppend(a: seq<string>, b: seq<string>)
    ensures ResolveAlternatives(a + b) == ResolveAlternatives(a) + ResolveAlternatives(b)
  {
    if a == [] {
      assert a + b == b;
    } else {
      assert (a + b)[0] == a[0] && (a + b)[1..] == a[1..] + b;
      ResolveAppend(a[1..], b);
    }
  }

  /** When every id is known, nothing is dropped: the i-th alternative is
      the one the i-th id names. */
  lemma {:induction false} ResolveKnown(ids: seq<string>)
    requires forall k :: 0 <= k < |ids| ==> ids[k] in EcoAlternatives
    ensures |ResolveAlternatives(ids)| == |ids|
    ensures forall k :: 0 <= k < |ids| ==> ResolveAlternatives(ids)[k] == EcoAlternatives[ids[k]]
  {
    if ids != [] {
      ResolveKnown(ids[1..]);
    }
  }

  /** `handleProductScanned(barcode)`: scanning stops; a known barcode
      makes its product current and lists its eco alternatives; an unknown
      barcode changes nothing else. */
  function ProductScanned(s: PageState, barcode: string): (r: PageState)
    ensures !r.isScanning
    ensures r.cart == s.cart && r.view == s.view && r.isListening == s.isListening
    ensures barcode in ProductDatabase ==>
      r.current == Some(ProductDatabase[barcode])
      && r.alternatives == ResolveAlternatives(ProductDatabase[barcode].alternatives)
    ensures barcode !in ProductDatabase ==> r.current == s.current && r.alternatives == s.alternatives
  {
    var s1 := s.(isScanning := false);
    if barcode in ProductDatabase then
      var product := ProductDatabase[barcode];
      s1.(current := Some(product), alternatives := ResolveAlternatives(product.alternatives))
    else
      s1
  }

  /** For every catalogue product, the alternatives shown are exactly the
      ones it lists, in its order, each greener than the product. */
  lemma ScanShowsAllAlternatives(s: PageState, barcode: string)
    requires barcode in ProductDatabase
    ensures var r := ProductScanned(s, barcode);
      var ids := ProductDatabase[barcode].alternatives;
      && |r.alternatives| == |ids|
      && forall k :: 0 <= k < |ids| ==>
           r.alternatives[k] == EcoAlternatives[ids[k]]
           && r.alternatives[k].carbon < ProductDatabase[barcode].carbon
  {
    var ids := ProductDatabase[barcode].alternatives;
    forall k | 0 <= k < |ids|
      ensures ids[k] in EcoAlternatives
      ensures EcoAlternatives[ids[k]].carbon < ProductDatabase[barcode].carbon
    {
      AlternativesResolve(barcode, k);
    }
    ResolveKnown(ids);
  }

  // ---------------------------------------------------------------------
  // handleVoiceCommand
  // ---------------------------------------------------------------------

  /** The `switch (result.action)`: map, alternatives, scanner and scan
      prompts open the scanner; carbon details and eco products open the
      cart, or the scanner while the cart is empty; help keeps the view. */
  function ViewAfter(action: Action, cartEmpty: bool, view: View): (r: View)
    ensures r == CartView ==>
      (!cartEmpty && (action == ShowCarbonDetails || action == ShowEcoProducts)) || (action == ShowHelp && view == CartView)
    ensures r != view ==> action != ShowHelp
  {
    match action
    case ShowMap | ShowAlternatives | ShowScanner | PromptScan => ScannerView
    case ShowCarbonDetails | ShowEcoProducts => if cartEmpty then ScannerView else CartView
    case ShowHelp => view
  }

  /** The barcode scanned a second after an alternatives answer about
      detergent or shampoo; other answers, bread included, scan nothing. */
  function FollowUpScan(data: Payload): (r: Option<string>)
    ensures r.Some? <==> data == Topic("detergent") || data == Topic("shampoo")
    ensures r.Some? ==> r.value in ProductDatabase
  {
    if data == Topic("detergent") then Some("012345678901")
    else if data == Topic("shampoo") then Some("456789012345")
    else None
  }

  /** A handled voice command: the new state, the classifier's result (shown
      to the user as a notification), and the barcode to scan next, if any. */
  datatype VoiceOutcome = VoiceOutcome(state: PageState, result: CommandResult, followUp: Option<string>)

  /** `handleVoiceCommand(command)`, without its one-second delay before the
      follow-up scan. */
  function HandleVoiceCommand(s: PageState, command: string): (r: VoiceOutcome)
    ensures r.result == ProcessVoiceCommand(command)
    ensures !r.state.isListening
    ensures r.state == s.(isListening := false, view := r.state.view)
    ensures r.state.view == CartView ==> s.cart != [] || s.view == CartView
    ensures r.followUp.Some? <==> r.result.data == Topic("detergent") || r.result.data == Topic("shampoo")
    ensures r.followUp == FollowUpScan(r.result.data)
  {
    var result := ProcessVoiceCommand(command);
    var view := ViewAfter(result.action, |s.cart| == 0, s.view);
    VoiceOutcome(s.(isListening := false, view := view), result, FollowUpScan(result.data))
  }

  /** The state once the follow-up scan, if any, has run: without one the
      state is as the handler left it; with one the scanned product becomes
      current, and the cart, the view and the microphone are untouched. */
  function AfterFollowUp(o: VoiceOutcome): (r: PageState)
    ensures o.followUp.None? ==> r == o.state
    ensures r.cart == o.state.cart && r.view == o.state.view && r.isListening == o.state.isListening
    ensures o.followUp.Some? && o.followUp.value in ProductDatabase ==>
      r.current == Some(ProductDatabase[o.followUp.value]) && !r.isScanning
  {
    match o.followUp
    case None => o.state
    case Some(barcode) => ProductScanned(o.state, barcode)
  }

  /** The view after a voice command, by result type: location answers
      with a map, alternatives and availability open the scanner; eco and
      carbon answers open the cart when it has lines and the scanner
      otherwise; general help and location help keep the view. */
  lemma ViewByType(s: PageState, command: string)
    ensures var o := HandleVoiceCommand(s, command);
      var k := o.result.kind;
      && (k == LocationQuery && o.result.reply.Located? ==> o.state.view == ScannerView)
      && (k == LocationQuery && o.result.reply == LocationHelp ==> o.state.view == s.view)
      && (k == Alternatives || k == Availability ==> o.state.view == ScannerView)
      && (k == Eco || k == Carbon ==> o.state.view == if s.cart == [] then ScannerView else CartView)
      && (k == General ==> o.state.view == s.view)
  {
    var r := ProcessVoiceCommand(command);
    assert WellFormed(r);
  }

  /** Asking for a better detergent ends with the regular detergent
      scanned and its two eco alternatives listed, on the scanner view. */
  lemma DetergentQueryScansDetergent(s: PageState, command: string)
    requires ProcessVoiceCommand(command).data == Topic("detergent")
    ensures var r := AfterFollowUp(HandleVoiceCommand(s, command));
      && r.current == Some(ProductDatabase["012345678901"])
      && r.alternatives == [EcoAlternatives["2"], EcoAlternatives["3"]]
      && r.view == ScannerView
  {
    var o := HandleVoiceCommand(s, command);
    assert WellFormed(o.result);
    ResolveKnown(ProductDatabase["012345678901"].alternatives);
  }

  /** Asking for a better shampoo ends with the regular shampoo scanned and
      its eco alternative listed, on the scanner view. */
  lemma ShampooQueryScansShampoo(s: PageState, command: string)
    requires ProcessVoiceCommand(command).data == Topic("shampoo")
    ensures var r := AfterFollowUp(HandleVoiceCommand(s, command));
      && r.current == Some(ProductDatabase["456789012345"])
      && r.alternatives == [EcoAlternatives["9"]]
      && r.view == ScannerView
  {
    var o := HandleVoiceCommand(s, command);
    assert WellFormed(o.result);
    ResolveKnown(ProductDatabase["456789012345"].alternatives);
  }

  // ---------------------------------------------------------------------
  // Notification heading
  // ---------------------------------------------------------------------

  /** `getCommandTypeIcon(type)`. */
  function CommandTypeIcon(kind: string): (r: string)
    ensures r == "\U{1F916}" <==> kind !in {"location", "alternatives", "availability", "eco", "carbon"}
  {
    match kind
    case "location" => "\U{1F4CD}"
    case "alternatives" => "\U{1F331}"
    case "availability" => "\U{2705}"
    case "eco" => "\U{267B}\U{FE0F}"
    case "carbon" => "\U{1F30D}"
    case _ => "\U{1F916}"
  }

  /** `getCommandTypeTitle(type)`. */
  function CommandTypeTitle(kind: string): (r: string)
    ensures r == "EcoCart Assistant" <==> kind !in {"location", "alternatives", "availability", "eco", "carbon"}
    ensures r == "EcoCart Assistant" <==> CommandTypeIcon(kind) == "\U{1F916}"
  {
    match kind
    case "location" => "Store Navigation"
    case "alternatives" => "Eco Alternatives"
    case "availability" => "Product Availability"
    case "eco" => "Sustainability Assistant"
    case "carbon" => "Carbon Impact"
    case _ => "EcoCart Assistant"
  }

  /** Every type the classifier produces gets its own icon and title, except
      `general`, which has no case of its own and gets the defaults. */
  lemma HeadingOfResult(a: CommandType, b: CommandType)
    ensures CommandTypeTitle(TypeName(a)) == "EcoCart Assistant" <==> a == General
    ensures CommandTypeIcon(TypeName(a)) == "\U{1F916}" <==> a == General
    ensures CommandTypeTitle(TypeName(a)) == CommandTypeTitle(TypeName(b)) ==> a == b
  {
  }

  // ---------------------------------------------------------------------
  // handleCheckout
  // ---------------------------------------------------------------------

  /** `handleCheckout`: reports the number of units and the total carbon
      footprint (grams), empties the cart and returns to the home view. */
  method Checkout(s: PageState) returns (r: PageState, totalItems: int, totalCarbon: int)
    ensures totalItems == TotalQuantity(s.cart)
    ensures totalCarbon == TotalCarbon(s.cart)
    ensures r == s.(cart := [], view := Home)
  {
    var items := s.cart;
    totalItems, totalCarbon := 0, 0;
    var i := 0;
    while i < |items|
      invariant 0 <= i <= |items|
      invariant totalItems == Total(items[..i], Quantity)
      invariant totalCarbon == Total(items[..i], LineCarbon)
    {
      assert items[..i + 1] == items[..i] + [items[i]];
      TotalAppend(items[..i], [items[i]], Quantity);
      TotalAppend(items[..i], [items[i]], LineCarbon);
      totalItems := totalItems + items[i].quantity;
      totalCarbon := totalCarbon + items[i].carbon * items[i].quantity;
      i := i + 1;
    }
    assert items[..i] == items;
    r := s.(cart := [], view := Home);
  }

  // ---------------------------------------------------------------------
  // Home view eco score
  // ---------------------------------------------------------------------

  /** The eco score card of the home view, which repeats the cart
      summary's expression; the two always agree. */
  function HomeEcoScore(cart: seq<CartItem>): (r: nat)
    ensures r == EcoScore(cart)
  {
    if |cart| > 0 then RoundHalfUp(100 * |HighRated(cart)|, |cart|) else 0
  }

  // ---------------------------------------------------------------------
  // Manual barcode entry feeding the scan handler
  // ---------------------------------------------------------------------

  /** Submitting the manual barcode form on the page. */
  function SubmitBarcode(s: PageState, input: string): (r: PageState)
    ensures ManualSubmit(input).scanned.None? ==> r == s
    ensures ManualSubmit(input).scanned.Some? ==> r == ProductScanned(s, Trim(input))
  {
    match ManualSubmit(input).scanned
    case None => s
    case Some(barcode) => ProductScanned(s, barcode)
  }

  /** Catalogue barcodes are non-empty and have no whitespace at either end. */
  lemma BarcodeTrimmed(barcode: string)
    requires barcode in ProductDatabase
    ensures barcode != [] && IsTrimmed(barcode)
  {
  }

  /** Two entries that trim to the same text have the same effect. */
  lemma SameScanSameEffect(s: PageState, x: string, y: string)
    requires Trim(x) == Trim(y)
    ensures SubmitBarcode(s, x) == SubmitBarcode(s, y)
  {
  }

  /** A non-empty trimmed entry typed with surrounding whitespace has the
      same effect on the page as the bare entry. */
  lemma PaddedEntrySameEffect(s: PageState, before: string, entry: string, after: string)
    requires entry != [] && IsTrimmed(entry)
    requires AllSpace(before) && AllSpace(after)
    ensures SubmitBarcode(s, before + entry + after) == SubmitBarcode(s, entry)
  {
    PaddedEntryScansBarcode(before, entry, after);
    TrimmedEntryScansItself(entry);
    SameScanSameEffect(s, before + entry + after, entry);
  }

  /** In particular, a catalogue barcode typed with surrounding whitespace
      has the same effect on the page as the bare barcode. */
  lemma PaddedBarcodeSameEffect(s: PageState, before: string, barcode: string, after: string)
    requires barcode in ProductDatabase
    requires AllSpace(before) && AllSpace(after)
    ensures SubmitBarcode(s, before + barcode + after) == SubmitBarcode(s, barcode)
  {
    BarcodeTrimmed(barcode);
    PaddedEntrySameEffect(s, before, barcode, after);
  }

  /** Every demo barcode the simulated scan can pick is in the catalogue. */
  lemma SimulatedScanFindsProduct(s: PageState, choice: nat)
    requires choice < |MockBarcodes|
    ensures SimulatedScan(choice) in ProductDatabase
    ensures ProductScanned(s, SimulatedScan(choice)).current.Some?
  {
  }
}

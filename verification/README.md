# EcoCart shopping assistant — decision layer in Dafny

This project models the pure decision logic under the React pages of the
EcoCart demo, a mock shopping assistant:

- the voice-command classifier `processVoiceCommand` and the store-map
  search `STORE_MAP.findItemLocation` (`src/utils/voiceCommands.ts`);
- the page state of `src/pages/Index.tsx`:
  - the two mock product tables;
  - the cart and its add, remove and checkout handlers;
  - the barcode-scan handler;
  - the view switch and follow-up scan after a voice command;
  - the notification icon and title;
  - the home view's eco score;
- the cart figures of `src/components/CartSummary.tsx`: total price, total
  carbon, the eco score and its colour and message bands;
- the manual barcode form of `src/components/ScannerInterface.tsx`.

Money is held in cents and carbon footprints in grams of CO2, so every
total is exact. The eco score is the exact half-up rounding of
100 · (high-rated lines) / (lines).

Modules, one per concern:

| module | file | models |
|---|---|---|
| `Wrappers` | `wrappers.dfy` | `Option`, standing for `null`/`undefined` |
| `Strings` | `strings.dfy` | `toLowerCase`, `includes`, `trim`, first-letter capitalisation, `${n}` |
| `StoreMap` | `store_map.dfy` | the aisle table and `findItemLocation` |
| `VoiceCommands` | `voice_commands.dfy` | `processVoiceCommand` |
| `Catalog` | `catalog.dfy` | `PRODUCT_DATABASE`, `ECO_ALTERNATIVES` |
| `Cart` | `cart.dfy` | `CartItem`, `handleAddToCart`, `handleRemoveFromCart`, the sums over lines |
| `CartSummary` | `cart_summary.dfy` | `totalPrice`, `totalCarbon`, `ecoScore`, colour and message |
| `Scanner` | `scanner.dfy` | `handleManualSubmit`, the Add button's `disabled` test, the demo barcodes |
| `App` | `app.dfy` | `handleProductScanned`, `handleVoiceCommand`, `handleCheckout`, the notification heading, the home eco score |

A cart is "valid" when its ids are pairwise distinct and every quantity
is at least 1. Add and remove keep carts valid.

Carts are also read as a bag of product ids: `QuantityOf(cart, id)` is the
number of units of `id` over all lines. This reading is the reference
against which add and remove are stated.

## Model

| member | source | states |
|---|---|---|
| StoreMap.AislesAscending | src/utils/voiceCommands.ts:3-12 | The aisle table runs in strictly ascending aisle number: entry k is aisle k+1. So the visiting order of `Object.entries` is also lowest aisle first. |
| StoreMap.FirstMatch | src/utils/voiceCommands.ts:17-19 | `items.find` returns the first item whose lower-cased text contains the query or is contained in it. When nothing is found, no item matches. |
| StoreMap.FindHit | src/utils/voiceCommands.ts:16-23 | The aisle loop stops at the first aisle with a match, at that aisle's first match. When it finds nothing, no item of any aisle matches. |
| StoreMap.FindHitIsFirstHit | src/utils/voiceCommands.ts:16-23 | The first hit is unique: any position shown to be the first match is the one the loop returns. |
| StoreMap.FindItemLocation | src/utils/voiceCommands.ts:14-25 | Returns null exactly when no item matches the lower-cased name. Otherwise it returns the aisle number, aisle name and item of the first hit, and the item lies in that aisle. |
| StoreMap.FindItemLocationLowestAisle | src/utils/voiceCommands.ts:14-25 | The location found matches the name. No aisle with a lower number has a matching item. |
| StoreMap.SoapLocation | src/utils/voiceCommands.ts:8-9 | `findItemLocation("soap")` is aisle 5, "Health & Beauty", "natural soap", not the dish soap of aisle 6. |
| StoreMap.FoundVia | src/utils/voiceCommands.ts:14-25 | A lower-case query that occurs in any catalogue item is found. |
| VoiceCommands.TypeName | src/utils/voiceCommands.ts:41-117 | Every result's `type` is one of the six names location, alternatives, availability, eco, carbon, general. |
| VoiceCommands.TypeNameInjective | src/utils/voiceCommands.ts:41-117 | Distinct result types carry distinct `type` strings. |
| VoiceCommands.FirstKeyword | src/utils/voiceCommands.ts:34-35 | `keywords.find` returns the first keyword, in list order, that occurs in the command. It returns none exactly when no keyword occurs. |
| VoiceCommands.ProcessVoiceCommand | src/utils/voiceCommands.ts:29-121 | Total. Every result pairs its type with that branch's action and data. A location answer with a map holds the location found, with an aisle between 1 and 8. An alternatives topic is detergent, shampoo or bread. |
| VoiceCommands.CaseInsensitive | src/utils/voiceCommands.ts:30 | A command and its lower-cased form are classified identically. |
| VoiceCommands.BranchOrder | src/utils/voiceCommands.ts:33-120 | The type is that of the first branch whose trigger words occur, in the order location, alternatives, availability, eco, carbon. Otherwise it is general. Each direction is stated as an iff. |
| VoiceCommands.ActionOfType | src/utils/voiceCommands.ts:33-120 | Only location answers show the map. Alternatives answers show alternatives or prompt a scan. Availability, eco and carbon each have their own action. The default is general with `show_help`. |
| VoiceCommands.MilkResolves | src/utils/voiceCommands.ts:5 | "milk" resolves to a store location. |
| VoiceCommands.BreadResolves | src/utils/voiceCommands.ts:6 | "bread" resolves to a store location. |
| VoiceCommands.PastaResolves | src/utils/voiceCommands.ts:7 | "pasta" resolves to a store location. |
| VoiceCommands.ShampooResolves | src/utils/voiceCommands.ts:8 | "shampoo" resolves to a store location. |
| VoiceCommands.DetergentResolves | src/utils/voiceCommands.ts:9 | "detergent" resolves to a store location. |
| VoiceCommands.SoapResolves | src/utils/voiceCommands.ts:8 | "soap" resolves to a store location. |
| VoiceCommands.JuiceResolves | src/utils/voiceCommands.ts:11 | "juice" resolves to a store location. |
| VoiceCommands.VegetablesResolves | src/utils/voiceCommands.ts:10 | "vegetables" resolves to a store location. |
| VoiceCommands.KeywordsResolve | src/utils/voiceCommands.ts:34-39 | Every keyword of the location list resolves to a non-null location. |
| VoiceCommands.LocationSentence | src/utils/voiceCommands.ts:42 | The location sentence starts with the keyword, its first letter upper-cased, and ends with the item to look for followed by "!". |
| VoiceCommands.ReplyText | src/utils/voiceCommands.ts:42-118 | The `response` of each answer. For a found product it starts with the capitalised keyword. |
| VoiceCommands.LocationQueryUsesFirstKeyword | src/utils/voiceCommands.ts:33-46 | Take a location query whose first keyword in list order is the i-th. It yields `show_map`, with the location of that keyword as data and an answer built from that keyword. |
| VoiceCommands.LocatedResponseStartsWithKeyword | src/utils/voiceCommands.ts:42 | Whenever the map is shown, the response text starts with the capitalised keyword. |
| VoiceCommands.LocationHelpIff | src/utils/voiceCommands.ts:33-53 | A location query falls back to the help answer exactly when it names none of the keywords. It never does so because a keyword failed to resolve. |
| VoiceCommands.AlternativesOrder | src/utils/voiceCommands.ts:56-86 | Within the alternatives branch the order is detergent or laundry, then shampoo, then bread, each with its `data`. Otherwise the answer is `prompt_scan` with no data. Every case is stated as an iff. |
| VoiceCommands.SoapQuery | src/utils/voiceCommands.ts:33-46 | A location query naming soap, and none of the keywords before it, is sent to aisle 5, "natural soap". |
| Strings.Lower | src/utils/voiceCommands.ts:30 | Lower-casing keeps the length, leaves no upper-case letter, and changes each character only in case. |
| Strings.LowerIdempotent | src/utils/voiceCommands.ts:30 | Lower-casing twice is lower-casing once. |
| Strings.Contains | src/utils/voiceCommands.ts:18 | `includes` finds the empty string in every string and never finds a string longer than the text. |
| Strings.ContainsMeaning | src/utils/voiceCommands.ts:18 | The `includes` search succeeds exactly when the substring occurs at some offset. |
| Strings.Capitalize | src/utils/voiceCommands.ts:42 | `charAt(0).toUpperCase() + slice(1)` keeps the length, upper-cases the first character and keeps the rest. |
| Strings.Trim | src/components/ScannerInterface.tsx:18 | The result has no whitespace at either end. It is the slice of the input after the leading whitespace, and only whitespace follows it. |
| Strings.TrimPadded | src/components/ScannerInterface.tsx:18-19 | Trimming whitespace + t + whitespace, for a trimmed t, gives t. |
| Strings.TrimIdempotent | src/components/ScannerInterface.tsx:18-19 | Trimming is idempotent. |
| Strings.TrimEmptyIff | src/components/ScannerInterface.tsx:18 | The trimmed text is empty exactly when the input is all whitespace. |
| Strings.DecimalString | src/utils/voiceCommands.ts:42 | `${n}` is a canonical digit string (no leading zero) whose value is n. |
| Catalog.AlternativesWellKeyed | src/pages/Index.tsx:62-99 | Each entry of the alternatives table sits under its own id, is rated high and is flagged as an eco alternative. |
| Catalog.AlternativesResolve | src/pages/Index.tsx:14-99 | Every alternative id a scannable product lists is in the alternatives table, and that alternative has a lower carbon footprint than the product. |
| Cart.Find | src/pages/Index.tsx:209 | `cartItems.find` returns a line exactly when some line has the id, and then it returns the first such line. |
| Cart.AddToCart | src/pages/Index.tsx:208-228 | The length grows by one exactly when the id was absent. Existing lines change only in quantity, which never drops. The product's id is in the result. |
| Cart.AddExisting | src/pages/Index.tsx:211-218 | In a valid cart holding the product, its line gains exactly one unit. Every other line, the length and the order are unchanged. |
| Cart.AddExistingSplit | src/pages/Index.tsx:211-218 | The same, as a replacement of the product's line inside the unchanged prefix and suffix. |
| Cart.AddAbsent | src/pages/Index.tsx:219-227 | For an absent id, the old lines are kept and one line is appended. It has quantity 1 and the product's id, name, price, carbon footprint and rating. |
| Cart.AddPreservesValid | src/pages/Index.tsx:208-228 | Adding keeps ids distinct and quantities at least 1. |
| Cart.AddQuantities | src/pages/Index.tsx:208-228 | Read as a bag, adding to a valid cart adds exactly one unit of the product's id and changes no other id. |
| Cart.AddIncrementsTotal | src/pages/Index.tsx:208-228 | Adding to a valid cart raises the unit count by exactly 1. |
| Cart.RemoveFromCart | src/pages/Index.tsx:236-238 | A line is kept exactly when it was in the cart with another id. No line with the id remains. |
| Cart.RemoveAbsent | src/pages/Index.tsx:237 | Removing an id that is not in the cart returns the cart unchanged. |
| Cart.RemoveAppend | src/pages/Index.tsx:237 | Removal works stretch by stretch, so the kept lines keep their original order. |
| Cart.RemovePreservesValid | src/pages/Index.tsx:237 | Removing keeps a cart valid. |
| Cart.RemoveQuantities | src/pages/Index.tsx:237 | Read as a bag, removal takes out every unit of the id and keeps every other id's units. |
| Cart.RemoveOnlyLine | src/pages/Index.tsx:237 | In a valid cart, removing a line's id drops exactly that line. |
| Cart.RemoveLine | src/pages/Index.tsx:237 | In a valid cart, removing a line lowers any per-line sum by that line's share. |
| Cart.TotalAppend | src/pages/Index.tsx:241 | The `reduce` sums are additive over concatenation. |
| Cart.TotalBounds | src/components/CartSummary.tsx:23-24 | A `reduce` sum of non-negative line weights is non-negative and at least the weight of each line. |
| CartSummary.TotalPrice | src/components/CartSummary.tsx:23 | The total price is never negative and is at least price × quantity of every line. |
| CartSummary.TotalCarbon | src/components/CartSummary.tsx:24 | The total carbon is never negative and is at least carbon × quantity of every line. |
| CartSummary.TotalsAdditive | src/components/CartSummary.tsx:23-24 | Total price and total carbon add up over concatenated carts. |
| CartSummary.RemoveLowersTotals | src/components/CartSummary.tsx:23-24 | Removing a line of a valid cart lowers the total price by price × quantity and the total carbon by carbon × quantity. |
| CartSummary.HighRated | src/components/CartSummary.tsx:26 | The filter keeps exactly the lines rated high, and is no longer than the cart. |
| CartSummary.HighRatedAppend | src/components/CartSummary.tsx:26 | The filter distributes over concatenation, so it keeps the lines in order. |
| CartSummary.HighRatedSingle | src/components/CartSummary.tsx:26 | A one-line cart keeps its line exactly when it is rated high. With `HighRatedAppend` this fixes the filter, and so the number of kept lines, for every cart. |
| CartSummary.AllHighIff | src/components/CartSummary.tsx:26 | The filter keeps every line exactly when every line is rated high. |
| CartSummary.HighRatedByRatings | src/components/CartSummary.tsx:26 | The filter's size depends only on the line ratings. |
| CartSummary.RoundHalfUp | src/components/CartSummary.tsx:26 | `Math.round(num/den)` is the integer r with r − ½ ≤ num/den < r + ½. |
| CartSummary.EcoScore | src/components/CartSummary.tsx:25-27 | The score is 0 for an empty cart and always lies in [0, 100]. Otherwise it is the nearest integer to 100·high/lines, halves up. |
| CartSummary.EcoScoreIgnoresQuantities | src/components/CartSummary.tsx:25-27 | The score counts lines, not units: carts with the same line ratings score the same. |
| CartSummary.AddExistingKeepsScore | src/components/CartSummary.tsx:25-27 | Adding another unit of a product already in the cart leaves the score unchanged. |
| CartSummary.EcoScore100Iff | src/components/CartSummary.tsx:25-27 | Below 200 lines, the score is 100 exactly when the cart is non-empty and all lines are high. |
| CartSummary.EcoScore0Iff | src/components/CartSummary.tsx:25-27 | Up to 200 lines, the score is 0 exactly when the cart is empty or has no high line. |
| CartSummary.Rounded100 | src/components/CartSummary.tsx:26 | The rounded percentage of h out of n (n < 200) is 100 exactly when h = n. |
| CartSummary.Rounded0 | src/components/CartSummary.tsx:26 | The rounded percentage of h out of n (n ≤ 200) is 0 exactly when h = 0. |
| CartSummary.RoundUnique | src/components/CartSummary.tsx:26 | The rounded value is unique. |
| CartSummary.RoundingReaches100 | src/components/CartSummary.tsx:26 | 199 high lines out of 200 already round to 100, so the line bounds above are needed. |
| CartSummary.EcoScoreColor | src/components/CartSummary.tsx:29-33 | ≥ 70 gives eco-positive, 40–69 gives eco-warning, and < 40 gives eco-negative, each as an iff. The page defines this function but never calls it. |
| CartSummary.EcoScoreMessage | src/components/CartSummary.tsx:35-39 | ≥ 70, 40–69 and < 40 select the excellent, good-progress and try-alternatives messages, each as an iff. |
| CartSummary.ColorMonotone | src/components/CartSummary.tsx:29-33 | A higher score never falls into a worse colour band. |
| CartSummary.MessageMatchesColor | src/components/CartSummary.tsx:29-39 | The message and the colour always come from the same band. Only the message is shown (line 117). |
| Scanner.ManualSubmit | src/components/ScannerInterface.tsx:16-22 | A scan happens exactly when the input is not all whitespace. Exactly the trimmed text is scanned, it is non-empty, and the field is cleared. Otherwise the field is unchanged. |
| Scanner.SubmitDisabled | src/components/ScannerInterface.tsx:110 | The Add button is disabled exactly when the input is all whitespace. |
| Scanner.EnabledIffScans | src/components/ScannerInterface.tsx:110 | The button is enabled exactly when a submit would scan, matching the guard at line 18. |
| Scanner.PaddedEntryScansBarcode | src/components/ScannerInterface.tsx:18-19 | A non-empty trimmed barcode with whitespace around it scans the bare barcode. |
| Scanner.TrimmedEntryScansItself | src/components/ScannerInterface.tsx:18-19 | A non-empty trimmed barcode is scanned as typed. |
| Scanner.ResubmitScansSame | src/components/ScannerInterface.tsx:18-19 | Submitting the scanned text again scans the same text. |
| Scanner.SimulatedScan | src/components/ScannerInterface.tsx:24-35 | A simulated scan picks one of the demo barcodes. |
| App.ResolveAlternatives | src/pages/Index.tsx:192 | `map(...).filter(Boolean)` keeps exactly the products named by known ids, and is no longer than the id list. |
| App.ResolveAppend | src/pages/Index.tsx:192 | Resolution works id by id, so it keeps the order of the ids. |
| App.ResolveKnown | src/pages/Index.tsx:192 | When every id is known nothing is dropped: the k-th alternative is the one the k-th id names. |
| App.ProductScanned | src/pages/Index.tsx:184-206 | Scanning always stops. A known barcode sets the current product and its resolved alternatives. An unknown barcode keeps both. The cart, view and listening flag never change. |
| App.ScanShowsAllAlternatives | src/pages/Index.tsx:184-193 | For a catalogue barcode the listed alternatives are exactly the product's ids, in order, and each is greener than the product. |
| App.ViewAfter | src/pages/Index.tsx:132-150 | The cart view is reached only through carbon details or eco products with a non-empty cart, or by help while already on it. Help never changes the view. |
| App.FollowUpScan | src/pages/Index.tsx:152-159 | A follow-up scan happens exactly for detergent and shampoo data, and its barcode is in the catalogue. |
| App.HandleVoiceCommand | src/pages/Index.tsx:119-160 | The result is `processVoiceCommand(command)`. Listening stops, and only the view may change. The cart view is entered only with a non-empty cart, or if it was already shown. A follow-up scan is scheduled exactly for detergent and shampoo data, and it is the follow-up scan of that data. |
| App.AfterFollowUp | src/pages/Index.tsx:152-159 | Without a follow-up the state is as the handler left it. With a catalogue barcode the scanned product becomes current and scanning stops. The cart, view and listening flag never change. |
| App.ViewByType | src/pages/Index.tsx:132-150 | By result type: located answers, alternatives and availability open the scanner. Eco and carbon open the cart when it has lines, else the scanner. General and location help keep the view. |
| App.DetergentQueryScansDetergent | src/pages/Index.tsx:152-155 | A detergent alternatives query ends on the scanner view. The regular detergent is current, with pods and concentrate listed. |
| App.ShampooQueryScansShampoo | src/pages/Index.tsx:156-159 | A shampoo alternatives query ends on the scanner view. The regular shampoo is current, with the sulfate-free shampoo listed. |
| App.CommandTypeIcon | src/pages/Index.tsx:162-171 | The robot icon is returned exactly for types outside the five named ones. |
| App.CommandTypeTitle | src/pages/Index.tsx:173-182 | "EcoCart Assistant" is returned exactly for types outside the five named ones, which are also exactly the types that get the default icon. |
| App.HeadingOfResult | src/pages/Index.tsx:162-182 | Of the classifier's types, only `general` gets the default icon and title. Distinct types get distinct titles. |
| App.Checkout | src/pages/Index.tsx:240-251 | Reports the sum of quantities and the total carbon. Then the cart is empty, the view is home, and nothing else changes. |
| App.HomeEcoScore | src/pages/Index.tsx:357-359 | The home view's eco score equals the cart summary's for every cart. |
| App.SubmitBarcode | src/pages/Index.tsx:371 | A manual submit feeds exactly the trimmed entry to the scan handler, or leaves the page unchanged. |
| App.BarcodeTrimmed | src/pages/Index.tsx:14-60 | Catalogue barcodes are non-empty and have no whitespace at either end. |
| App.PaddedEntrySameEffect | src/components/ScannerInterface.tsx:19 | A trimmed entry typed with whitespace around it has the same effect on the page as the bare entry. |
| App.PaddedBarcodeSameEffect | src/components/ScannerInterface.tsx:19 | A catalogue barcode typed with surrounding whitespace has the same effect on the page as the bare barcode. |
| App.SimulatedScanFindsProduct | src/components/ScannerInterface.tsx:26-34 | Every demo barcode the simulated scan can pick is in the catalogue, so that scan always sets a current product. |

## Left out

- `getEcoScoreColor` (src/components/CartSummary.tsx:29-33) is defined but never called; the card uses fixed classes. `CartSummary.EcoScoreColor` models it for completeness.
- Rendering: the JSX, CSS classes, images (the `image` field), every `toast(...)` call with its text and `toFixed` formatting, and all of `ProductCard.tsx`. These are presentation only.
- `VoiceAssistant.tsx`: a timer-driven component that picks a random mock phrase.
- The buttons that only flip `isScanning` and `isListening`, and the header's view buttons. Each is a one-field assignment.
- Randomness: the random index of `simulateBarcodeScan` is a parameter of `Scanner.SimulatedScan`. The random saving figure in the cart summary is not modelled.
- Timing: the one-second `setTimeout` before the follow-up scan. `App.AfterFollowUp` applies that scan as a separate step.
- Closures: `handleAddToCart` tests presence on the cart of the last render but updates with functional setters. `handleVoiceCommand` reads the cart length of the last render. Both are modelled as acting on the current cart.
- Arithmetic: prices, carbon figures and the score are JavaScript floating point in the source. Here prices are integer cents and carbon is integer grams. `Math.round(h / n * 100)` is exact half-up rounding. A float quotient within rounding error of a half could round differently from the exact value. The model does not track that.
- CartSummary.EcoScore100Iff: holds for carts of fewer than 200 lines only. At 200 lines, 199 high lines already round to 100 (`CartSummary.RoundingReaches100`). The catalogue has nine products, so no cart the page builds reaches that size.
- CartSummary.EcoScore0Iff: holds for carts of at most 200 lines only, for the same reason.
- Strings.Lower: lower-cases ASCII letters only. JavaScript's `toLowerCase` also maps other Unicode letters, some of them onto ASCII letters. For example U+212A KELVIN SIGN becomes `k`, so "where is the MIL\u212A" gets `show_map` in the page and `show_help` here. Only commands containing such characters are classified differently.
- Property lookup: `PRODUCT_DATABASE[barcode]` in JavaScript also finds inherited members such as `constructor` or `toString`, after which `product.alternatives.map` would throw. The model treats every barcode that is not a table key as unknown.
- `parseInt(aisleNum)`: the aisle number is stored as a number.
- `handleCheckout` reports its totals only in a notification. `App.Checkout` returns them as out-parameters.

/** `processVoiceCommand` of `src/utils/voiceCommands.ts`: a case-insensitive
    classifier that runs an ordered sequence of substring tests over the
    command and returns one of six result types, each with a canned
    response, an action tag for the page, and optional data. */
module VoiceCommands {
  import opened Wrappers
  import opened Strings
  import opened StoreMap

  /** The `type` field of a result. */
  datatype CommandType = LocationQuery | Alternatives | Availability | Eco | Carbon | General

  /** The string the source stores in `type`. */
  function TypeName(t: CommandType): (r: string)
    ensures r in {"location", "alternatives", "availability", "eco", "carbon", "general"}
  {
    match t
    case LocationQuery => "location"
    case Alternatives => "alternatives"
    case Availability => "availability"
    case Eco => "eco"
    case Carbon => "carbon"
    case General => "general"
  }

  /** Different types are stored under different names. */
  lemma TypeNameInjective(a: CommandType, b: CommandType)
    requires TypeName(a) == TypeName(b)
    ensures a == b
  {
  }

  /** The `action` field of a result. */
  datatype Action =
    | ShowMap | ShowHelp | ShowAlternatives | PromptScan
    | ShowScanner | ShowEcoProducts | ShowCarbonDetails

  /** The `data` field: absent, a store location, or a product topic. */
  datatype Payload = NoData | At(location: Location) | Topic(topic: string)

  /** Which canned answer a result carries; `Located` is the one answer
      assembled from the product word and its store location. The text of
      each is given by `ReplyText`. */
  datatype Reply =
    | Located(keyword: string, location: Location)
    | LocationHelp
    | DetergentAlternatives | ShampooAlternatives | BreadAlternatives | AlternativesHelp
    | InStock | EcoOptions | CarbonEstimate | GeneralHelp

  datatype CommandResult = CommandResult(kind: CommandType, reply: Reply, action: Action, data: Payload)

  // The trigger words of each branch, in the order the source tests them.
  const LocationWords: seq<string> := ["where", "aisle", "find"]
  const AlternativeWords: seq<string> := ["better", "alternative", "healthier"]
  const AvailabilityWords: seq<string> := ["do you have", "available", "stock"]
  const EcoWords: seq<string> := ["eco", "sustainable", "green"]
  const CarbonWords: seq<string> := ["carbon", "environmental", "impact"]

  /** The products a location query can name, in the order they are tried. */
  const LocationKeywords: seq<string> :=
    ["milk", "bread", "pasta", "shampoo", "detergent", "soap", "juice", "vegetables"]

  /** The sentence given for a product word found at `loc`: it opens
      with the word, first letter upper-cased, and closes with the item to
      look for and an exclamation mark. */
  function LocationSentence(keyword: string, loc: Location): (r: string)
    ensures |keyword| + |loc.item| + 1 <= |r|
    ensures r[..|keyword|] == Capitalize(keyword)
    ensures r[|r| - |loc.item| - 1..] == loc.item + "!"
  {
    var rest := " is in Aisle " + DecimalString(loc.aisle) + " - " + loc.name + ". Look for ";
    var r := Capitalize(keyword) + rest + (loc.item + "!");
    assert r[..|keyword|] == Capitalize(keyword);
    assert r[|r| - |loc.item| - 1..] == loc.item + "!";
    r
  }

  /** The `response` string of each answer; for a found product, the
      sentence naming that product first. */
  function ReplyText(r: Reply): (t: string)
    ensures r.Located? ==> |r.keyword| <= |t| && t[..|r.keyword|] == Capitalize(r.keyword)
  {
    if r.Located? then LocationSentence(r.keyword, r.location) else FixedText(r)
  }

  /** The fixed `response` literals of the answers that name no product. */
  function FixedText(r: Reply): string
    requires !r.Located?
  {
    match r
    case LocationHelp =>
      "I can help you find items! Try asking about milk, bread, pasta, shampoo, or other products."
    case DetergentAlternatives =>
      "I found 2 eco-friendly detergent alternatives! Plant-based pods and concentrated eco detergent both have 60% less carbon footprint."
    case ShampooAlternatives =>
      "Try our sulfate-free natural shampoo! It's in Aisle 5 and has 50% less environmental impact than regular shampoo."
    case BreadAlternatives =>
      "Our organic whole grain bread has more nutrients and uses sustainable farming. It's in Aisle 3!"
    case AlternativesHelp =>
      "I can suggest better alternatives! Scan a product or ask about specific items like detergent, shampoo, or bread."
    case InStock =>
      "Yes! We have that item in stock. Would you like me to show you the location and any eco-friendly alternatives?"
    case EcoOptions =>
      "Great choice! I'll show you our eco-friendly options with lower carbon footprints and sustainable packaging."
    case CarbonEstimate =>
      "Your current cart has a carbon footprint of X kg CO\U{2082}. I can suggest alternatives to reduce this by up to 40%!"
    case GeneralHelp =>
      "I can help you find items, suggest eco-friendly alternatives, check availability, and reduce your environmental impact. What would you like to know?"
  }

  /** One of `words` occurs in `s` (the `a || b || c` of `includes` tests). */
  predicate ContainsAny(s: string, words: seq<string>) {
    exists i | 0 <= i < |words| :: Contains(s, words[i])
  }

  /** `keywords.find(keyword => s.includes(keyword))`, as an index. */
  function FirstKeyword(s: string, keywords: seq<string>): (r: Option<nat>)
    ensures r.Some? ==>
      && r.value < |keywords|
      && Contains(s, keywords[r.value])
      && forall j :: 0 <= j < r.value ==> !Contains(s, keywords[j])
    ensures r.None? <==> !ContainsAny(s, keywords)
  {
    if keywords == [] then None
    else if Contains(s, keywords[0]) then Some(0)
    else match FirstKeyword(s, keywords[1..])
      case None => None
      case Some(i) => Some(i + 1)
  }

  /** The location branch, for a lower-cased command. */
  function LocationAnswer(lc: string): CommandResult {
    match FirstKeyword(lc, LocationKeywords)
    case Some(i) =>
      (match FindItemLocation(LocationKeywords[i])
       case Some(loc) => CommandResult(LocationQuery, Located(LocationKeywords[i], loc), ShowMap, At(loc))
       case None => CommandResult(LocationQuery, LocationHelp, ShowHelp, NoData))
    case None => CommandResult(LocationQuery, LocationHelp, ShowHelp, NoData)
  }

  /** The alternatives branch, for a lower-cased command. */
  function AlternativesAnswer(lc: string): CommandResult {
    if Contains(lc, "detergent") || Contains(lc, "laundry") then
      CommandResult(Alternatives, DetergentAlternatives, ShowAlternatives, Topic("detergent"))
    else if Contains(lc, "shampoo") then
      CommandResult(Alternatives, ShampooAlternatives, ShowAlternatives, Topic("shampoo"))
    else if Contains(lc, "bread") then
      CommandResult(Alternatives, BreadAlternatives, ShowAlternatives, Topic("bread"))
    else
      CommandResult(Alternatives, AlternativesHelp, PromptScan, NoData)
  }

  /** Which action tags, and which kind of data, go with each result type. */
  predicate WellFormed(r: CommandResult) {
    match r.kind
    case LocationQuery =>
      (r.action == ShowMap && r.data.At? && r.reply.Located?)
      || (r.action == ShowHelp && r.data == NoData && r.reply == LocationHelp)
    case Alternatives =>
      (r.action == ShowAlternatives && r.data.Topic?) || (r.action == PromptScan && r.data == NoData)
    case Availability => r.action == ShowScanner && r.data == NoData
    case Eco => r.action == ShowEcoProducts && r.data == NoData
    case Carbon => r.action == ShowCarbonDetails && r.data == NoData
    case General => r.action == ShowHelp && r.data == NoData
  }

  /** `processVoiceCommand(command)`. */
  function ProcessVoiceCommand(command: string): (r: CommandResult)
    ensures WellFormed(r)
    ensures r.data.At? ==> 1 <= r.data.location.aisle <= |Aisles|
    ensures r.data.Topic? ==> r.data.topic in {"detergent", "shampoo", "bread"}
  {
    var lc := Lower(command);
    if ContainsAny(lc, LocationWords) then
      LocationAnswer(lc)
    else if ContainsAny(lc, AlternativeWords) then
      AlternativesAnswer(lc)
    else if ContainsAny(lc, AvailabilityWords) then
      CommandResult(Availability, InStock, ShowScanner, NoData)
    else if ContainsAny(lc, EcoWords) then
      CommandResult(Eco, EcoOptions, ShowEcoProducts, NoData)
    else if ContainsAny(lc, CarbonWords) then
      CommandResult(Carbon, CarbonEstimate, ShowCarbonDetails, NoData)
    else
      CommandResult(General, GeneralHelp, ShowHelp, NoData)
  }

  /** The `response` string of a result. */
  function Response(r: CommandResult): string {
    ReplyText(r.reply)
  }

  // ---------------------------------------------------------------------
  // Properties of the classifier
  // ---------------------------------------------------------------------

  /** Classification ignores case: the command and its lower-cased form get
      the same result. */
  lemma CaseInsensitive(command: string)
    ensures ProcessVoiceCommand(Lower(command)) == ProcessVoiceCommand(command)
  {
    LowerIdempotent(command);
  }

  /** Branch order: the result type is that of the first branch, in the
      order location, alternatives, availability, eco, carbon, whose trigger
      words occur in the lower-cased command, and `general` when none does. */
  lemma BranchOrder(command: string)
    ensures var lc := Lower(command);
      var kind := ProcessVoiceCommand(command).kind;
      && (kind == LocationQuery <==> ContainsAny(lc, LocationWords))
      && (kind == Alternatives <==>
            !ContainsAny(lc, LocationWords) && ContainsAny(lc, AlternativeWords))
      && (kind == Availability <==>
            !ContainsAny(lc, LocationWords) && !ContainsAny(lc, AlternativeWords)
            && ContainsAny(lc, AvailabilityWords))
      && (kind == Eco <==>
            !ContainsAny(lc, LocationWords) && !ContainsAny(lc, AlternativeWords)
            && !ContainsAny(lc, AvailabilityWords) && ContainsAny(lc, EcoWords))
      && (kind == Carbon <==>
            !ContainsAny(lc, LocationWords) && !ContainsAny(lc, AlternativeWords)
            && !ContainsAny(lc, AvailabilityWords) && !ContainsAny(lc, EcoWords)
            && ContainsAny(lc, CarbonWords))
      && (kind == General <==>
            !ContainsAny(lc, LocationWords) && !ContainsAny(lc, AlternativeWords)
            && !ContainsAny(lc, AvailabilityWords) && !ContainsAny(lc, EcoWords)
            && !ContainsAny(lc, CarbonWords))
  {
  }

  /** Each result type comes with its own action tags: only location
      answers show the map, alternatives show alternatives or prompt for a
      scan, availability, eco and carbon each have one action of their own,
      and the default is the general help answer. */
  lemma ActionOfType(command: string)
    ensures var r := ProcessVoiceCommand(command);
      && (r.action == ShowMap ==> r.kind == LocationQuery)
      && (r.action == ShowAlternatives || r.action == PromptScan <==> r.kind == Alternatives)
      && (r.action == ShowScanner <==> r.kind == Availability)
      && (r.action == ShowEcoProducts <==> r.kind == Eco)
      && (r.action == ShowCarbonDetails <==> r.kind == Carbon)
      && (r.kind == General ==> r.action == ShowHelp && r.reply == GeneralHelp)
  {
  }

  // Each product word occurs in a catalogue item, so the search finds it.

  lemma MilkResolves()
    ensures FindItemLocation(LocationKeywords[0]).Some?
  {
    FoundVia(LocationKeywords[0], 1, 0, 7);
  }

  lemma BreadResolves()
    ensures FindItemLocation(LocationKeywords[1]).Some?
  {
    FoundVia(LocationKeywords[1], 2, 0, 8);
  }

  lemma PastaResolves()
    ensures FindItemLocation(LocationKeywords[2]).Some?
  {
    FoundVia(LocationKeywords[2], 3, 0, 0);
  }

  lemma ShampooResolves()
    ensures FindItemLocation(LocationKeywords[3]).Some?
  {
    FoundVia(LocationKeywords[3], 4, 0, 13);
  }

  lemma DetergentResolves()
    ensures FindItemLocation(LocationKeywords[4]).Some?
  {
    FoundVia(LocationKeywords[4], 5, 0, 4);
  }

  lemma SoapResolves()
    ensures FindItemLocation(LocationKeywords[5]).Some?
  {
    FoundVia(LocationKeywords[5], 4, 1, 8);
  }

  lemma JuiceResolves()
    ensures FindItemLocation(LocationKeywords[6]).Some?
  {
    FoundVia(LocationKeywords[6], 7, 1, 8);
  }

  lemma VegetablesResolves()
    ensures FindItemLocation(LocationKeywords[7]).Some?
  {
    FoundVia(LocationKeywords[7], 6, 0, 7);
  }

  /** Every product word of the location branch names a catalogue item. */
  lemma KeywordsResolve(i: nat)
    requires i < |LocationKeywords|
    ensures FindItemLocation(LocationKeywords[i]).Some?
  {
    if i == 0 { MilkResolves(); }
    else if i == 1 { BreadResolves(); }
    else if i == 2 { PastaResolves(); }
    else if i == 3 { ShampooResolves(); }
    else if i == 4 { DetergentResolves(); }
    else if i == 5 { SoapResolves(); }
    else if i == 6 { JuiceResolves(); }
    else { VegetablesResolves(); }
  }

  /** A location query uses the first product word, in list order, that
      occurs in the command, and answers with its place on the map. */
  lemma LocationQueryUsesFirstKeyword(command: string, i: nat)
    requires ContainsAny(Lower(command), LocationWords)
    requires i < |LocationKeywords| && Contains(Lower(command), LocationKeywords[i])
    requires forall j | 0 <= j < i :: !Contains(Lower(command), LocationKeywords[j])
    ensures var r := ProcessVoiceCommand(command);
      && r.kind == LocationQuery && r.action == ShowMap
      && FindItemLocation(LocationKeywords[i]).Some?
      && r.data == At(FindItemLocation(LocationKeywords[i]).value)
      && r.reply == Located(LocationKeywords[i], r.data.location)
  {
    var f := FirstKeyword(Lower(command), LocationKeywords);
    assert f == Some(i) by {
      if f.Some? && f.value > i {
        assert Contains(Lower(command), LocationKeywords[i]);
      }
    }
    KeywordsResolve(i);
  }

  /** The response to a location query that found its product word starts
      with that word, first letter upper-cased. */
  lemma LocatedResponseStartsWithKeyword(command: string)
    ensures var r := ProcessVoiceCommand(command);
      r.action == ShowMap ==>
        && r.reply.Located?
        && |r.reply.keyword| <= |Response(r)|
        && Response(r)[..|r.reply.keyword|] == Capitalize(r.reply.keyword)
  {
    var r := ProcessVoiceCommand(command);
    if r.action == ShowMap {
      assert WellFormed(r);
    }
  }

  /** A location query falls back to the help answer exactly when it names
      none of the product words. */
  lemma LocationHelpIff(command: string)
    requires ContainsAny(Lower(command), LocationWords)
    ensures ProcessVoiceCommand(command).action == ShowHelp <==> !ContainsAny(Lower(command), LocationKeywords)
  {
    var f := FirstKeyword(Lower(command), LocationKeywords);
    if f.Some? {
      KeywordsResolve(f.value);
    }
  }

  /** The alternatives branch tries detergent or laundry first, then
      shampoo, then bread, and otherwise prompts for a scan. */
  lemma AlternativesOrder(command: string)
    requires !ContainsAny(Lower(command), LocationWords) && ContainsAny(Lower(command), AlternativeWords)
    ensures var r := ProcessVoiceCommand(command);
      var lc := Lower(command);
      var detergent := Contains(lc, "detergent") || Contains(lc, "laundry");
      && r.kind == Alternatives
      && (r.data == Topic("detergent") <==> detergent)
      && (r.data == Topic("shampoo") <==> !detergent && Contains(lc, "shampoo"))
      && (r.data == Topic("bread") <==> !detergent && !Contains(lc, "shampoo") && Contains(lc, "bread"))
      && (r.action == PromptScan <==> r.data == NoData)
      && (r.action == PromptScan <==> !detergent && !Contains(lc, "shampoo") && !Contains(lc, "bread"))
  {
  }

  /** A location query that asks for soap, and for none of the product
      words tried before it, is sent to aisle 5, not to the dish soap of
      aisle 6. */
  lemma SoapQuery(command: string)
    requires ContainsAny(Lower(command), LocationWords)
    requires Contains(Lower(command), "soap")
    requires forall j | 0 <= j < 5 :: !Contains(Lower(command), LocationKeywords[j])
    ensures ProcessVoiceCommand(command).data == At(Location(5, "Health & Beauty", "natural soap"))
  {
    LocationQueryUsesFirstKeyword(command, 5);
    SoapLocation();
  }
}

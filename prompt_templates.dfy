/** The prompts of the restaurant inventory scanner and the validators of the model's replies to
    them (smart-kitchen-camera-module/services/promptTemplates.ts). Every prompt there is a
    template literal passed through `.trim()`; each starts with a line break (the invoice prompt
    with a line break and two spaces) and ends with a colon, so the trim removes exactly that
    opening, and the fixed texts below are written without it. */
module PromptTemplates {
  import opened Wrappers
  import opened Text
  import opened Seqs
  import opened Js
  import opened ModelOutput
  import opened Kitchen

  // ---------------------------------------------------------------- scan options

  /** The area a scan covers (`ScanAreaType`). */
  datatype ScanArea = StorageArea | PrepArea | FridgeArea

  /** `AREA_DESCRIPTIONS[area]`. */
  function AreaDescription(area: ScanArea): string {
    match area
    case StorageArea => "dry storage with shelves"
    case PrepArea => "prep station with containers"
    case FridgeArea => "refrigerator/cold storage"
  }

  /** An item the prompts name (`KnownItem`, and `DictionaryItem` for the audit prompt); only
      the name and the unit are read. */
  datatype KnownItem = KnownItem(name: string, unit: string)

  /** `ALLOWED_UNITS`. */
  const AllowedUnits := ["kg", "g", "L", "ml", "pcs", "box", "bag", "bottle", "pack", "bunch"]

  /** The scan and invoice prompts name at most this many known items. */
  const KnownItemsCap := 20

  /** `FEW_SHOT_EXAMPLES`. */
  const FewShotExamples := Join([
    "",
    "[Direct count]",
    "{\"items\":[{\"name\":\"Tofu\",\"quantity\":3,\"unit\":\"box\",\"confidence\":0.95,\"notes\":\"3 boxes visible\"}],\"scan_quality\":\"good\"}",
    "",
    "[Package calculation]",
    "{\"items\":[{\"name\":\"Rice\",\"quantity\":10,\"unit\":\"kg\",\"confidence\":0.9,\"notes\":\"2 bags × 5kg\"}],\"scan_quality\":\"good\"}",
    ""
  ], "\n")

  // ---------------------------------------------------------------- the scan prompt

  const ScanHead := "# Restaurant Inventory Scanner\nCount food items in "
  const KnownItemsHeading := Join([
    "",
    "",
    "## Known Items",
    ""
  ], "\n")
  const ScanRules := Join([
    "",
    "",
    "## Rules",
    "1. COUNT visible items only - never guess hidden quantities",
    "2. READ labels for weight/volume when visible",
    "3. For stacks: count front row, note uncertainty",
    "4. Confidence: 0.9+=clear, 0.7-0.9=partial, <0.7=uncertain",
    "",
    "## Output (JSON only, no other text)",
    "{\"items\":[{\"name\":\"str\",\"quantity\":num,\"unit\":\""
  ], "\n")
  const ScanExamplesHeading := Join([
    "\",\"confidence\":0-1,\"notes\":\"how counted\"}],\"scan_quality\":\"good/medium/poor\"}",
    "",
    "## Examples",
    ""
  ], "\n")
  const ScanClosing := Join([
    "",
    "",
    "Analyze now:"
  ], "\n")

  /** The fixed text after the known-items list, with the allowed units joined by '/'. */
  const ScanRest := ScanRules + Join(AllowedUnits, "/") + ScanExamplesHeading + FewShotExamples + ScanClosing

  const WarningLead := "\n⚠️ "
  const WarningTail := " images of SAME area - count each item ONCE only!"

  /** The warning that several images show the same area, naming how many there are. */
  function MultiImageWarning(imageCount: int): (r: string)
    ensures r == "" <==> imageCount <= 1
    ensures imageCount > 1 ==> OccursAt(r, IntToString(imageCount), |WarningLead|)
  {
    if imageCount > 1 then
      var warning := WarningLead + IntToString(imageCount) + WarningTail;
      assert warning[|WarningLead|..|WarningLead| + |IntToString(imageCount)|] == IntToString(imageCount);
      warning
    else ""
  }

  function KnownItemLabel(item: KnownItem): string {
    item.name + "(" + item.unit + ")"
  }

  /** The known items the scan prompt lists: the labels of the first 20, in order. */
  function ListedKnownItems(knownItems: seq<KnownItem>): seq<string> {
    Map(Take(knownItems, KnownItemsCap), KnownItemLabel)
  }

  /** The known-items section, with a fallback instruction when there are none. */
  function KnownItemsList(knownItems: seq<KnownItem>): string {
    if |knownItems| > 0 then Join(ListedKnownItems(knownItems), ", ")
    else "identify all visible food items"
  }

  /** The text before the warning. */
  function ScanLead(area: ScanArea): string {
    ScanHead + AreaDescription(area) + "."
  }

  /** The text after the warning. */
  function ScanBody(knownItems: seq<KnownItem>): string {
    KnownItemsHeading + KnownItemsList(knownItems) + ScanRest
  }

  /** `generateScanPrompt({imageCount, scanArea, knownItems})`. */
  function ScanPrompt(imageCount: int, area: ScanArea, knownItems: seq<KnownItem>): string {
    ScanLead(area) + MultiImageWarning(imageCount) + ScanBody(knownItems)
  }

  /** The same-area warning, with the image count, is in the prompt when more than one image is
      sent; with one image or none the prompt is the fixed text around the lists alone. */
  lemma ScanPromptWarning(imageCount: int, area: ScanArea, knownItems: seq<KnownItem>)
    ensures imageCount > 1 ==> Contains(ScanPrompt(imageCount, area, knownItems), MultiImageWarning(imageCount))
    ensures imageCount > 1 ==> Contains(ScanPrompt(imageCount, area, knownItems), IntToString(imageCount))
    ensures imageCount <= 1 ==> ScanPrompt(imageCount, area, knownItems) == ScanLead(area) + ScanBody(knownItems)
  {
    NoteInTemplate(ScanLead(area), MultiImageWarning(imageCount), ScanBody(knownItems), IntToString(imageCount), imageCount > 1);
  }

  /** With no known items the prompt gives the fallback instruction. */
  lemma ScanPromptFallback(imageCount: int, area: ScanArea)
    ensures Contains(ScanPrompt(imageCount, area, []), "identify all visible food items")
  {
    var list := KnownItemsList([]);
    ContainsEmptyAndSelf(list);
    ContainsNested(ScanLead(area), MultiImageWarning(imageCount), KnownItemsHeading, list, ScanRest, list);
  }

  /** Each of the first 20 known items is listed. */
  lemma ScanPromptListsKnownItems(imageCount: int, area: ScanArea, knownItems: seq<KnownItem>)
    ensures forall k :: 0 <= k < |knownItems| && k < KnownItemsCap ==>
              Contains(ScanPrompt(imageCount, area, knownItems), KnownItemLabel(knownItems[k]))
  {
    var lead := ScanLead(area);
    var warning := MultiImageWarning(imageCount);
    var list := KnownItemsList(knownItems);
    var listed := ListedKnownItems(knownItems);
    forall k | 0 <= k < |knownItems| && k < KnownItemsCap
      ensures Contains(ScanPrompt(imageCount, area, knownItems), KnownItemLabel(knownItems[k]))
    {
      assert listed[k] == KnownItemLabel(knownItems[k]);
      JoinContains(listed, ", ", k);
      ContainsNested(lead, warning, KnownItemsHeading, list, ScanRest, KnownItemLabel(knownItems[k]));
    }
  }

  /** The known items after the 20th do not change the prompt. */
  lemma ScanPromptCap(imageCount: int, area: ScanArea, knownItems: seq<KnownItem>)
    requires |knownItems| > KnownItemsCap
    ensures ScanPrompt(imageCount, area, knownItems) == ScanPrompt(imageCount, area, knownItems[..KnownItemsCap])
  {
    assert Take(knownItems, KnownItemsCap) == Take(knownItems[..KnownItemsCap], KnownItemsCap);
    assert KnownItemsList(knownItems) == KnownItemsList(knownItems[..KnownItemsCap]);
  }

  // ---------------------------------------------------------------- the detailed scan prompt

  const DetailedHead := Join([
    "# Expert Restaurant Inventory Scanner",
    "",
    "## Task",
    "Analyze "
  ], "\n")
  const DetailedKnownHeading := Join([
    " and count all food items.",
    "",
    "## Known Items",
    ""
  ], "\n")
  const DetailedRules := Join([
    "",
    "",
    "## Counting Method",
    "1. Direct Count (visible items)",
    "2. Label Reading (weight/volume)",
    "3. Partial Visibility (estimate visibly only)",
    "",
    "## Output Format",
    "```json",
    "{",
    "  \"items\": [",
    "    {\"name\": \"Item name\", \"quantity\": number, \"unit\": \""
  ], "\n")
  const DetailedClosing := Join([
    "\", \"confidence\": 0.0-1.0, \"notes\": \"counting method\"}",
    "  ],",
    "  \"scan_quality\": \"good/medium/poor\",",
    "  \"suggestions\": [\"optional improvements\"]",
    "}",
    "```",
    "",
    "Analyze the image(s) now:"
  ], "\n")

  /** The fixed text after the known-items list. */
  const DetailedRest := DetailedRules + Join(AllowedUnits, "/") + DetailedClosing

  function DetailedKnownLine(item: KnownItem): string {
    "- " + item.name + " (" + item.unit + ")"
  }

  /** One line per known item, every one of them, or a fallback line when there are none. */
  function DetailedKnownList(knownItems: seq<KnownItem>): string {
    if |knownItems| > 0 then Join(Map(knownItems, DetailedKnownLine), "\n")
    else "- Identify all visible food items"
  }

  /** "<count> image(s) of ", the plural written only for more than one image. */
  function ImageCountPhrase(imageCount: int): string {
    IntToString(imageCount) + " image" + (if imageCount > 1 then "s" else "") + " of "
  }

  /** `generateDetailedScanPrompt({imageCount, scanArea, knownItems})`. */
  function DetailedScanPrompt(imageCount: int, area: ScanArea, knownItems: seq<KnownItem>): string {
    DetailedHead + ImageCountPhrase(imageCount)
    + (AreaDescription(area) + DetailedKnownHeading + DetailedKnownList(knownItems) + DetailedRest)
  }

  /** The task line says "images" exactly when more than one image is sent. */
  lemma DetailedScanPromptPlural(imageCount: int, area: ScanArea, knownItems: seq<KnownItem>)
    ensures imageCount > 1 ==>
              OccursAt(DetailedScanPrompt(imageCount, area, knownItems), IntToString(imageCount) + " images of ", |DetailedHead|)
    ensures imageCount <= 1 ==>
              OccursAt(DetailedScanPrompt(imageCount, area, knownItems), IntToString(imageCount) + " image of ", |DetailedHead|)
  {
    var body := AreaDescription(area) + DetailedKnownHeading + DetailedKnownList(knownItems) + DetailedRest;
    OccursBetween(DetailedHead, ImageCountPhrase(imageCount), body);
    ImageCountPhrasePlural(imageCount);
  }

  lemma ImageCountPhrasePlural(imageCount: int)
    ensures imageCount > 1 ==> ImageCountPhrase(imageCount) == IntToString(imageCount) + " images of "
    ensures imageCount <= 1 ==> ImageCountPhrase(imageCount) == IntToString(imageCount) + " image of "
  {
    var n := IntToString(imageCount);
    if imageCount > 1 {
      assert " image" + "s" + " of " == " images of ";
      assert n + " image" + "s" + " of " == n + (" image" + "s" + " of ");
    } else {
      assert " image" + "" + " of " == " image of ";
      assert n + " image" + "" + " of " == n + (" image" + "" + " of ");
    }
  }

  /** Unlike the scan prompt, the detailed prompt lists every known item, however many there are. */
  lemma DetailedScanPromptKnownItems(imageCount: int, area: ScanArea, knownItems: seq<KnownItem>)
    ensures knownItems == [] ==> Contains(DetailedScanPrompt(imageCount, area, knownItems), "- Identify all visible food items")
    ensures forall k :: 0 <= k < |knownItems| ==>
              Contains(DetailedScanPrompt(imageCount, area, knownItems), DetailedKnownLine(knownItems[k]))
  {
    var phrase := ImageCountPhrase(imageCount);
    var heading := AreaDescription(area) + DetailedKnownHeading;
    var list := DetailedKnownList(knownItems);
    if knownItems == [] {
      ContainsEmptyAndSelf(list);
      ContainsNested(DetailedHead, phrase, heading, list, DetailedRest, list);
    }
    forall k | 0 <= k < |knownItems|
      ensures Contains(DetailedScanPrompt(imageCount, area, knownItems), DetailedKnownLine(knownItems[k]))
    {
      JoinContains(Map(knownItems, DetailedKnownLine), "\n", k);
      ContainsNested(DetailedHead, phrase, heading, list, DetailedRest, DetailedKnownLine(knownItems[k]));
    }
  }

  // ---------------------------------------------------------------- the fridge audit prompt

  const AuditHead := Join([
    "# Fridge Inventory Audit with Label Reading",
    "",
    "## Known Items (MATCH these names exactly):",
    ""
  ], "\n")
  const AuditTail := Join([
    "",
    "",
    "## Task",
    "1. Count ACTUAL visible quantities for each item",
    "2. Use exact names from known items when matching",
    "3. READ LABELS - extract weight, brand, and expiry if visible",
    "4. Report NEW items not in the known list",
    "5. Report items from known list that are NOT visible",
    "",
    "## Output JSON (strict format)",
    "{",
    "  \"found\": [{",
    "    \"name\": \"exact name\",",
    "    \"quantity\": num,",
    "    \"unit\": \"can/bottle/box/pcs/kg/L\",",
    "    \"confidence\": 0-1,",
    "    \"label_weight\": \"330ml per can\",",
    "    \"brand\": \"Brand\",",
    "    \"expiry\": \"YYYY-MM-DD\",",
    "    \"notes\": \"count notes\"",
    "  }],",
    "  \"not_found\": [\"names of known items not visible\"],",
    "  \"new_items\": [{",
    "    \"name\": \"descriptive name\",",
    "    \"quantity\": num,",
    "    \"unit\": \"unit\",",
    "    \"confidence\": 0-1,",
    "    \"label_weight\": \"label info\",",
    "    \"brand\": \"brand\"",
    "  }],",
    "  \"scan_quality\": \"good/medium/poor\"",
    "}",
    "",
    "Analyze:"
  ], "\n")

  /** Every dictionary entry, or a placeholder when the dictionary is empty. */
  function DictionaryList(dictionary: seq<KnownItem>): string {
    if |dictionary| > 0 then Join(Map(dictionary, KnownItemLabel), ", ") else "(no known items)"
  }

  /** `generateFridgeAuditPrompt({imageCount, dictionary})`; the image count is not used. */
  function FridgeAuditPrompt(dictionary: seq<KnownItem>): string {
    AuditHead + DictionaryList(dictionary) + AuditTail
  }

  /** The audit prompt names every dictionary entry, or "(no known items)". */
  lemma FridgeAuditPromptDictionary(dictionary: seq<KnownItem>)
    ensures dictionary == [] ==> OccursAt(FridgeAuditPrompt(dictionary), "(no known items)", |AuditHead|)
    ensures forall k :: 0 <= k < |dictionary| ==> Contains(FridgeAuditPrompt(dictionary), KnownItemLabel(dictionary[k]))
  {
    var list := DictionaryList(dictionary);
    OccursBetween(AuditHead, list, AuditTail);
    forall k | 0 <= k < |dictionary|
      ensures Contains(FridgeAuditPrompt(dictionary), KnownItemLabel(dictionary[k]))
    {
      JoinContains(Map(dictionary, KnownItemLabel), ", ", k);
      ContainsWithin(AuditHead, list, AuditTail, KnownItemLabel(dictionary[k]));
    }
  }

  // ---------------------------------------------------------------- the invoice prompt

  const InvoiceHead := Join([
    "# Supplier Invoice/Delivery Note Scanner",
    "  ",
    "  ## Task",
    "  Extract:",
    "  1. Supplier Name",
    "  2. Invoice Number",
    "  3. Date",
    "  4. Line Items (Name, Qty, Unit, Unit Cost, Total Price)",
    "  ",
    "  "
  ], "\n")
  const InvoiceTail := Join([
    "",
    "  ",
    "  ## Output Format (JSON only)",
    "  {",
    "    \"supplier\": \"Supplier Name\",",
    "    \"invoiceNumber\": \"INV-123\",",
    "    \"date\": \"YYYY-MM-DD\",",
    "    \"items\": [",
    "      {",
    "        \"name\": \"Item name\",",
    "        \"quantity\": 10,",
    "        \"unit\": \"kg\",",
    "        \"unitCost\": 5.99,",
    "        \"totalPrice\": 59.90,",
    "        \"confidence\": 0.9",
    "      }",
    "    ],",
    "    \"grandTotal\": 100.00,",
    "    \"scanQuality\": \"good/medium/poor\"",
    "  }",
    "  ",
    "  Analyze now:"
  ], "\n")

  /** "Known items: " and the first 20 names, or nothing at all when there are none. */
  function InvoiceKnownLine(knownItems: seq<string>): string {
    if |knownItems| > 0 then "Known items: " + Join(Take(knownItems, KnownItemsCap), ", ") else ""
  }

  /** `generateInvoiceScanPrompt(knownItems)`; the default argument is `[]`. */
  function InvoiceScanPrompt(knownItems: seq<string>): string {
    InvoiceHead + InvoiceKnownLine(knownItems) + InvoiceTail
  }

  /** Without known items the line between the task and the output format is left blank;
      otherwise it names each of the first 20, and the names after the 20th do not change it. */
  lemma InvoiceScanPromptKnownItems(knownItems: seq<string>)
    ensures knownItems == [] ==> InvoiceScanPrompt(knownItems) == InvoiceHead + InvoiceTail
    ensures forall k :: 0 <= k < |knownItems| && k < KnownItemsCap ==> Contains(InvoiceScanPrompt(knownItems), knownItems[k])
    ensures |knownItems| > KnownItemsCap ==> InvoiceScanPrompt(knownItems) == InvoiceScanPrompt(knownItems[..KnownItemsCap])
  {
    var line := InvoiceKnownLine(knownItems);
    if knownItems == [] {
      assert InvoiceHead + line == InvoiceHead;
    }
    forall k | 0 <= k < |knownItems| && k < KnownItemsCap
      ensures Contains(InvoiceScanPrompt(knownItems), knownItems[k])
    {
      var names := Join(Take(knownItems, KnownItemsCap), ", ");
      JoinContains(Take(knownItems, KnownItemsCap), ", ", k);
      ContainsWithin("Known items: ", names, "", knownItems[k]);
      assert "Known items: " + names + "" == line;
      ContainsWithin(InvoiceHead, line, InvoiceTail, knownItems[k]);
    }
    if |knownItems| > KnownItemsCap {
      assert Take(knownItems, KnownItemsCap) == Take(knownItems[..KnownItemsCap], KnownItemsCap);
    }
  }

  // ---------------------------------------------------------------- the scan reply

  datatype ScanResultItem = ScanResultItem(name: string, quantity: Number, unit: string, confidence: real, notes: Option<Json>)

  datatype ScanResult = ScanResult(items: seq<ScanResultItem>, scanQuality: Json, suggestions: Json)

  /** `(unit || 'pcs').trim().toLowerCase()`: a truthy unit that is not a string throws; the
      result is always trimmed and lower-case. */
  function NormalUnit(unit: Option<Json>): (r: Outcome<string>)
    ensures r.Ok? <==> !Truthy(unit) || IsString(unit)
    ensures r.Ok? ==> r.value == (if Truthy(unit) then Lower(Trim(unit.value.s)) else DefaultUnit)
    ensures r.Ok? ==> Trim(r.value) == r.value && Lower(r.value) == r.value
  {
    if !Truthy(unit) then
      DefaultUnitTrimmed();
      DefaultUnitLower();
      Ok(DefaultUnit)
    else if !IsString(unit) then Thrown("TypeError: trim is not a function")
    else
      var s := unit.value.s;
      TrimIdempotent(s);
      LowerTrimCommute(Trim(s));
      LowerIdempotent(Trim(s));
      Ok(Lower(Trim(s)))
  }

  /** One kept item of the reply: `name.trim()` throws unless the name is a string. */
  function ScanResultItemOf(i: Json): (r: Outcome<ScanResultItem>)
    ensures r.Ok? <==> IsString(Field(i, "name")) && NormalUnit(Field(i, "unit")).Ok?
    ensures r.Ok? ==> r.value.name == Trim(Field(i, "name").value.s) && Trim(r.value.name) == r.value.name
    ensures r.Ok? ==> Ok(r.value.unit) == NormalUnit(Field(i, "unit"))
    ensures r.Ok? ==> r.value.quantity == ToNumber(Field(i, "quantity"))
    ensures r.Ok? ==> r.value.confidence == NumberOr(Field(i, "confidence"), 0.7) && r.value.confidence != 0.0
    ensures r.Ok? ==> r.value.notes == Field(i, "notes")
  {
    var name := Field(i, "name");
    if !IsString(name) then Thrown("TypeError: trim is not a function")
    else
      var unit :- NormalUnit(Field(i, "unit"));
      TrimIdempotent(name.value.s);
      Ok(ScanResultItem(Trim(name.value.s), ToNumber(Field(i, "quantity")), unit,
                        NumberOr(Field(i, "confidence"), 0.7), Field(i, "notes")))
  }

  /** The body of the `try` block, once the reply is parsed; `Ok(None)` is the early `return null`. */
  function ScanResultOf(data: Json): Outcome<Option<ScanResult>> {
    var items :- Get(data, "items");
    if !Truthy(items) || !IsArray(items) then Ok(None)
    else
      var kept :- FilterOk(items.value.elems, NamedPositive);
      var mapped :- MapOk(kept, ScanResultItemOf);
      Ok(Some(ScanResult(mapped, Or(Field(data, "scan_quality"), JStr("medium")), Or(Field(data, "suggestions"), JArr([])))))
  }

  /** The validator once the reply is cleaned and parsed: `None` is a parse that threw. */
  function ScanReply(reply: Option<Json>): Option<ScanResult> {
    match reply
    case None => None
    case Some(data) =>
      match ScanResultOf(data)
      case Ok(r) => r
      case Thrown(_) => None
  }

  /** `validateAndParseScanResult(raw)`; `parse` stands for `JSON.parse`, `None` for a throw. */
  function ValidateAndParseScanResult(raw: string, parse: string -> Option<Json>): Option<ScanResult> {
    ScanReply(parse(Clean(raw, true)))
  }

  lemma ScanResultOfUnfolds(data: Json)
    requires IsArray(Field(data, "items")) && JNull !in Field(data, "items").value.elems
    ensures ScanResultOf(data) ==
      (var mapped :- MapOk(KeptItems(data), ScanResultItemOf);
       Ok(Some(ScanResult(mapped, Or(Field(data, "scan_quality"), JStr("medium")), Or(Field(data, "suggestions"), JArr([]))))))
  {
    KeepTestThrows(Field(data, "items").value.elems);
  }

  /** The validator gives `null` exactly when the reply does not parse, has no item array, holds
      a `null` item, or keeps an item whose name or unit is not a string. */
  lemma ScanResultNull(reply: Option<Json>)
    ensures ScanReply(reply).None? <==>
      reply.None? || !IsArray(Field(reply.value, "items")) || JNull in ReplyItems(reply.value)
      || exists k :: 0 <= k < |KeptItems(reply.value)| && ScanResultItemOf(KeptItems(reply.value)[k]).Thrown?
  {
    if reply.Some? && IsArray(Field(reply.value, "items")) {
      var elems := Field(reply.value, "items").value.elems;
      KeepTestThrows(elems);
      if JNull !in elems {
        ScanResultOfUnfolds(reply.value);
      }
    }
  }

  /** A result lists, in order, one item per kept reply item; the scan quality defaults to
      "medium" and the suggestions to `[]`. */
  lemma ScanResultItems(reply: Option<Json>)
    ensures var r := ScanReply(reply);
      r.Some? ==>
        && |r.value.items| == |KeptItems(reply.value)|
        && (forall k :: 0 <= k < |KeptItems(reply.value)| ==> ScanResultItemOf(KeptItems(reply.value)[k]) == Ok(r.value.items[k]))
        && r.value.scanQuality == Or(Field(reply.value, "scan_quality"), JStr("medium"))
        && r.value.suggestions == Or(Field(reply.value, "suggestions"), JArr([]))
  {
    if ScanReply(reply).Some? {
      var data := reply.value;
      assert ScanResultOf(data).Ok? && ScanResultOf(data).value == ScanReply(reply);
      assert IsArray(Field(data, "items"));
      KeepTestThrows(Field(data, "items").value.elems);
      ScanResultOfUnfolds(data);
    }
  }

  /** Every item of a result has a positive quantity and a trimmed, lower-case unit. */
  lemma ScanResultItemsNormal(reply: Option<Json>)
    ensures var r := ScanReply(reply);
      r.Some? ==> forall k :: 0 <= k < |r.value.items| ==>
        && r.value.items[k].quantity.Finite? && r.value.items[k].quantity.value > 0.0
        && Trim(r.value.items[k].unit) == r.value.items[k].unit
        && Lower(r.value.items[k].unit) == r.value.items[k].unit
  {
    var r := ScanReply(reply);
    if r.Some? {
      ScanResultItems(reply);
      var kept := KeptItems(reply.value);
      var items := r.value.items;
      forall k | 0 <= k < |items|
        ensures items[k].quantity.Finite? && items[k].quantity.value > 0.0
        ensures Trim(items[k].unit) == items[k].unit && Lower(items[k].unit) == items[k].unit
      {
        KeptQuantityPositive(reply.value, k);
        assert ScanResultItemOf(kept[k]) == Ok(items[k]);
      }
    }
  }

  // ---------------------------------------------------------------- the fridge audit reply

  datatype AuditFound = AuditFound(
    name: Option<Json>,
    quantity: Number,
    unit: Option<Json>,
    confidence: real,
    labelWeight: Option<Json>,
    brand: Option<Json>,
    expiry: Option<Json>,
    notes: Option<Json>)

  datatype AuditNew = AuditNew(
    name: Option<Json>,
    quantity: Number,
    unit: Option<Json>,
    confidence: real,
    labelWeight: Option<Json>,
    brand: Option<Json>)

  datatype FridgeAudit = FridgeAudit(found: seq<AuditFound>, notFound: Json, newItems: seq<AuditNew>, scanQuality: Json)

  /** One found item: only a `null` element throws; the confidence defaults to 0.7. */
  function AuditFoundOf(i: Json): (r: Outcome<AuditFound>)
    ensures r.Thrown? <==> i == JNull
    ensures r.Ok? ==> r.value.name == Field(i, "name") && r.value.unit == Field(i, "unit")
    ensures r.Ok? ==> r.value.quantity == ToNumber(Field(i, "quantity"))
    ensures r.Ok? ==> r.value.confidence == NumberOr(Field(i, "confidence"), 0.7) && r.value.confidence != 0.0
    ensures r.Ok? ==> r.value.labelWeight == Field(i, "label_weight") && r.value.brand == Field(i, "brand")
    ensures r.Ok? ==> r.value.expiry == Field(i, "expiry") && r.value.notes == Field(i, "notes")
  {
    var name :- Get(i, "name");
    Ok(AuditFound(name, ToNumber(Field(i, "quantity")), Field(i, "unit"), NumberOr(Field(i, "confidence"), 0.7),
                  Field(i, "label_weight"), Field(i, "brand"), Field(i, "expiry"), Field(i, "notes")))
  }

  /** One new item: only a `null` element throws; the confidence defaults to 0.6. */
  function AuditNewOf(i: Json): (r: Outcome<AuditNew>)
    ensures r.Thrown? <==> i == JNull
    ensures r.Ok? ==> r.value.name == Field(i, "name") && r.value.unit == Field(i, "unit")
    ensures r.Ok? ==> r.value.quantity == ToNumber(Field(i, "quantity"))
    ensures r.Ok? ==> r.value.confidence == NumberOr(Field(i, "confidence"), 0.6) && r.value.confidence != 0.0
    ensures r.Ok? ==> r.value.labelWeight == Field(i, "label_weight") && r.value.brand == Field(i, "brand")
  {
    var name :- Get(i, "name");
    Ok(AuditNew(name, ToNumber(Field(i, "quantity")), Field(i, "unit"), NumberOr(Field(i, "confidence"), 0.6),
                Field(i, "label_weight"), Field(i, "brand")))
  }

  function FridgeAuditOf(data: Json): Outcome<FridgeAudit> {
    var found :- Get(data, "found");
    var foundElems :- ElementsOr(found);
    var foundItems :- MapOk(foundElems, AuditFoundOf);
    var newElems :- ElementsOr(Field(data, "new_items"));
    var newItems :- MapOk(newElems, AuditNewOf);
    Ok(FridgeAudit(foundItems, Or(Field(data, "not_found"), JArr([])), newItems, Or(Field(data, "scan_quality"), JStr("medium"))))
  }

  function FridgeAuditReply(reply: Option<Json>): Option<FridgeAudit> {
    match reply
    case None => None
    case Some(data) => FridgeAuditOf(data).ToOption()
  }

  /** `validateFridgeAuditResult(raw)`. */
  function ValidateFridgeAuditResult(raw: string, parse: string -> Option<Json>): Option<FridgeAudit> {
    FridgeAuditReply(parse(Clean(raw, true)))
  }

  /** `null` exactly when the reply does not parse, is `null`, has a truthy `found` or
      `new_items` that is not an array, or lists a `null` element in either. */
  lemma FridgeAuditNull(reply: Option<Json>)
    ensures FridgeAuditReply(reply).Some? <==>
      && reply.Some? && reply.value != JNull
      && ElementsOr(Field(reply.value, "found")).Ok? && JNull !in ElementsOr(Field(reply.value, "found")).value
      && ElementsOr(Field(reply.value, "new_items")).Ok? && JNull !in ElementsOr(Field(reply.value, "new_items")).value
  {
    if reply.Some? && reply.value != JNull {
      var found := ElementsOr(Field(reply.value, "found"));
      var added := ElementsOr(Field(reply.value, "new_items"));
      if found.Ok? {
        MapOkNull(found.value, AuditFoundOf);
      }
      if added.Ok? {
        MapOkNull(added.value, AuditNewOf);
      }
    }
  }

  /** No item is filtered out: one found item per element of `found` and one new item per
      element of `new_items`, in order; `not_found` defaults to `[]` and the scan quality to
      "medium". */
  lemma FridgeAuditDefaults(reply: Option<Json>)
    ensures var r := FridgeAuditReply(reply);
      r.Some? ==>
        var data := reply.value;
        var found := ElementsOr(Field(data, "found")).value;
        var added := ElementsOr(Field(data, "new_items")).value;
        && |r.value.found| == |found|
        && (forall k :: 0 <= k < |found| ==> AuditFoundOf(found[k]) == Ok(r.value.found[k]))
        && |r.value.newItems| == |added|
        && (forall k :: 0 <= k < |added| ==> AuditNewOf(added[k]) == Ok(r.value.newItems[k]))
        && r.value.notFound == Or(Field(data, "not_found"), JArr([]))
        && r.value.scanQuality == Or(Field(data, "scan_quality"), JStr("medium"))
  {
    var r := FridgeAuditReply(reply);
    if r.Some? {
      var data := reply.value;
      var found := ElementsOr(Field(data, "found")).value;
      var added := ElementsOr(Field(data, "new_items")).value;
      assert MapOk(found, AuditFoundOf).Ok? && r.value.found == MapOk(found, AuditFoundOf).value;
      assert MapOk(added, AuditNewOf).Ok? && r.value.newItems == MapOk(added, AuditNewOf).value;
    }
  }

  // ---------------------------------------------------------------- the invoice reply

  datatype InvoiceLine = InvoiceLine(
    name: Option<Json>,
    quantity: Number,
    unit: Option<Json>,
    unitCost: real,
    totalPrice: real,
    confidence: real,
    notes: Option<Json>)

  datatype InvoiceScan = InvoiceScan(
    supplier: Option<Json>,
    invoiceNumber: Option<Json>,
    date: Option<Json>,
    items: seq<InvoiceLine>,
    grandTotal: Option<Json>,
    scanQuality: Json)

  /** The number a price converts to, or 0 when it does not convert. */
  function PriceOr0(v: Option<Json>): (r: real)
    ensures ToNumber(v).Finite? ==> r == ToNumber(v).value
    ensures ToNumber(v).NaN? ==> r == 0.0
  {
    NumberOr(v, 0.0)
  }

  /** One invoice line: only a `null` element throws; unit cost and total price are 0 when
      they are not numeric, and the confidence defaults to 0.7. */
  function InvoiceLineOf(i: Json): (r: Outcome<InvoiceLine>)
    ensures r.Thrown? <==> i == JNull
    ensures r.Ok? ==> r.value.name == Field(i, "name") && r.value.unit == Field(i, "unit") && r.value.notes == Field(i, "notes")
    ensures r.Ok? ==> r.value.quantity == ToNumber(Field(i, "quantity"))
    ensures r.Ok? ==> r.value.unitCost == PriceOr0(Field(i, "unitCost")) && r.value.totalPrice == PriceOr0(Field(i, "totalPrice"))
    ensures r.Ok? ==> r.value.confidence == NumberOr(Field(i, "confidence"), 0.7) && r.value.confidence != 0.0
  {
    var name :- Get(i, "name");
    Ok(InvoiceLine(name, ToNumber(Field(i, "quantity")), Field(i, "unit"), PriceOr0(Field(i, "unitCost")),
                   PriceOr0(Field(i, "totalPrice")), NumberOr(Field(i, "confidence"), 0.7), Field(i, "notes")))
  }

  function InvoiceScanOf(data: Json): Outcome<InvoiceScan> {
    var items :- Get(data, "items");
    var elems :- ElementsOr(items);
    var lines :- MapOk(elems, InvoiceLineOf);
    Ok(InvoiceScan(Field(data, "supplier"), Field(data, "invoiceNumber"), Field(data, "date"), lines,
                   Field(data, "grandTotal"), Or(Field(data, "scanQuality"), JStr("medium"))))
  }

  function InvoiceScanReply(reply: Option<Json>): Option<InvoiceScan> {
    match reply
    case None => None
    case Some(data) => InvoiceScanOf(data).ToOption()
  }

  /** `validateInvoiceScanResult(raw)`. */
  function ValidateInvoiceScanResult(raw: string, parse: string -> Option<Json>): Option<InvoiceScan> {
    InvoiceScanReply(parse(Clean(raw, true)))
  }

  /** `null` exactly when the reply does not parse, is `null`, has a truthy `items` that is not
      an array, or lists a `null` line. */
  lemma InvoiceScanNull(reply: Option<Json>)
    ensures InvoiceScanReply(reply).Some? <==>
      reply.Some? && reply.value != JNull && ElementsOr(Field(reply.value, "items")).Ok?
      && JNull !in ElementsOr(Field(reply.value, "items")).value
  {
    if reply.Some? && reply.value != JNull && ElementsOr(Field(reply.value, "items")).Ok? {
      var elems := ElementsOr(Field(reply.value, "items")).value;
      MapOkNull(elems, InvoiceLineOf);
    }
  }

  /** One line per reply element, in order, each with numeric prices; the header fields are
      copied and the scan quality defaults to "medium". */
  lemma InvoiceScanDefaults(reply: Option<Json>)
    ensures var r := InvoiceScanReply(reply);
      r.Some? ==>
        var data := reply.value;
        var elems := ElementsOr(Field(data, "items")).value;
        && r.value.supplier == Field(data, "supplier")
        && r.value.invoiceNumber == Field(data, "invoiceNumber")
        && r.value.date == Field(data, "date")
        && r.value.grandTotal == Field(data, "grandTotal")
        && r.value.scanQuality == Or(Field(data, "scanQuality"), JStr("medium"))
        && |r.value.items| == |elems|
        && forall k :: 0 <= k < |elems| ==> InvoiceLineOf(elems[k]) == Ok(r.value.items[k])
  {
    var r := InvoiceScanReply(reply);
    if r.Some? {
      var data := reply.value;
      var elems := ElementsOr(Field(data, "items")).value;
      assert MapOk(elems, InvoiceLineOf).Ok? && r.value.items == MapOk(elems, InvoiceLineOf).value;
    }
  }
}

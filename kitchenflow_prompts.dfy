/** The prompts of the KitchenFlow fridge scanner and the validators of the model's replies to
    them (scanner-docs/kitchenflow-prompts.ts). Every prompt there is a template literal passed
    through `.trim()`; each starts with a line break and ends with a colon, so the trim removes
    exactly that first line break, and the fixed texts below are written without it. */
module KitchenFlowPrompts {
  import opened Wrappers
  import opened Text
  import opened Seqs
  import opened Js
  import opened ModelOutput
  import opened Kitchen

  // ---------------------------------------------------------------- the fridge snapshot prompt

  const FridgeHead := Join([
    "# KitchenFlow - Smart Fridge Scanner",
    "",
    "## Philosophy: \"不记账，只决策\"",
    "Identify TOP 5-10 CORE ingredients only. Ignore trivial items.",
    "",
    "## Task"
  ], "\n")
  const FridgeTail := Join([
    "",
    "1. Focus on MAIN ingredients (vegetables, proteins, dairy, staples)",
    "2. IGNORE: condiment bottles, sauce jars, small packets (unless obviously empty)",
    "3. Assess freshness VISUALLY (not by dates)",
    "",
    "## Freshness Assessment Rules",
    "- **fresh** (🟢): Vibrant color, firm texture, no spots",
    "  - Example: \"Bright red tomatoes, firm texture\"",
    "- **use-soon** (🟡): Slight wilting, minor spots, 3-5 days left",
    "  - Example: \"Baby spinach with edges slightly wilted\"",
    "- **priority** (🔴): Significant browning, must use TODAY",
    "  - Example: \"Banana heavily spotted, very soft\"",
    "",
    "## What to Count",
    "✅ Vegetables, fruits, proteins, dairy, eggs",
    "✅ Leftovers in containers (estimate contents)",
    "✅ Large staples (rice bags, flour)",
    "❌ Condiments (ketchup, soy sauce, etc.)",
    "❌ Small packets/jars",
    "❌ Drinks (unless specifically asked)",
    "",
    "## Output Format (JSON only, no markdown)",
    "{",
    "  \"items\": [",
    "    {",
    "      \"name\": \"Baby Spinach\",",
    "      \"quantity\": 1,",
    "      \"unit\": \"bag\",",
    "      \"freshness\": \"use-soon\",",
    "      \"confidence\": 0.9,",
    "      \"visualNotes\": \"leaves slightly wilted at edges\"",
    "    }",
    "  ],",
    "  \"scanQuality\": \"good\"",
    "}",
    "",
    "## Quality Guidelines",
    "- scanQuality: \"good\" (clear, well-lit), \"medium\" (some blur), \"poor\" (very dark/blurry)",
    "- confidence: 0.9+ (certain), 0.7-0.9 (likely), <0.7 (uncertain)",
    "",
    "Analyze the image(s) now:"
  ], "\n")

  const NoteLead := "\n⚠️ "
  const NoteTail := " photos of SAME fridge - count each item ONCE only!"

  /** The warning that several photos show the same fridge, naming how many there are. */
  function MultiPhotoNote(imageCount: int): (r: string)
    ensures r == "" <==> imageCount <= 1
    ensures imageCount > 1 ==> OccursAt(r, IntToString(imageCount), |NoteLead|)
  {
    if imageCount > 1 then
      var note := NoteLead + IntToString(imageCount) + NoteTail;
      assert note[|NoteLead|..|NoteLead| + |IntToString(imageCount)|] == IntToString(imageCount);
      note
    else ""
  }

  /** `generateKitchenFlowPrompt(imageCount)`: the note follows the "## Task" heading. */
  function KitchenFlowPrompt(imageCount: int): string {
    FridgeHead + MultiPhotoNote(imageCount) + FridgeTail
  }

  /** The count-once warning is in the prompt exactly when more than one photo is sent: with
      one photo the prompt is the fixed text alone. */
  lemma KitchenFlowPromptNote(imageCount: int)
    ensures imageCount > 1 ==> Contains(KitchenFlowPrompt(imageCount), MultiPhotoNote(imageCount))
    ensures imageCount > 1 ==> Contains(KitchenFlowPrompt(imageCount), IntToString(imageCount))
    ensures imageCount <= 1 ==> KitchenFlowPrompt(imageCount) == FridgeHead + FridgeTail
  {
    NoteInTemplate(FridgeHead, MultiPhotoNote(imageCount), FridgeTail, IntToString(imageCount), imageCount > 1);
  }

  // ---------------------------------------------------------------- the fridge snapshot reply

  /** One kept item of the reply: `i.name.trim()` and `(i.unit || 'pcs').trim()` throw unless
      the values are strings; the other fields get their defaults or are copied. */
  function SnapshotItem(i: Json): (r: Outcome<ScannedItem>)
    ensures r.Ok? <==> IsString(Field(i, "name")) && (!Truthy(Field(i, "unit")) || IsString(Field(i, "unit")))
    ensures r.Ok? ==> r.value.name == Trim(Field(i, "name").value.s) && Trim(r.value.name) == r.value.name
    ensures r.Ok? ==> r.value.unit == (if Truthy(Field(i, "unit")) then Trim(Field(i, "unit").value.s) else DefaultUnit)
    ensures r.Ok? ==> r.value.quantity == ToNumber(Field(i, "quantity"))
    ensures r.Ok? ==> r.value.freshness == Or(Field(i, "freshness"), JStr("fresh"))
    ensures r.Ok? ==> r.value.confidence == NumberOr(Field(i, "confidence"), 0.7) && r.value.confidence != 0.0
    ensures r.Ok? ==> r.value.visualNotes == Field(i, "visualNotes")
  {
    var name := Field(i, "name");
    var unit := Field(i, "unit");
    if !IsString(name) || (Truthy(unit) && !IsString(unit)) then Thrown("TypeError: trim is not a function")
    else
      TrimIdempotent(name.value.s);
      DefaultUnitTrimmed();
      Ok(ScannedItem(Trim(name.value.s), ToNumber(Field(i, "quantity")), Trim(Or(unit, JStr(DefaultUnit)).s),
                     Or(Field(i, "freshness"), JStr("fresh")), NumberOr(Field(i, "confidence"), 0.7), Field(i, "visualNotes")))
  }

  /** The body of the `try` block, once the reply is parsed; `Ok(None)` is the early `return null`. */
  function SnapshotOf(data: Json): Outcome<Option<FridgeScan>> {
    var items :- Get(data, "items");
    if !Truthy(items) || !IsArray(items) then Ok(None)
    else
      var kept :- FilterOk(items.value.elems, NamedPositive);
      var mapped :- MapOk(kept, SnapshotItem);
      Ok(Some(FridgeScan(mapped, Or(Field(data, "scanQuality"), JStr("medium")))))
  }

  /** The validator once the reply is cleaned and parsed: `None` is a parse that threw. */
  function KitchenFlowReply(reply: Option<Json>): Option<FridgeScan> {
    match reply
    case None => None
    case Some(data) =>
      match SnapshotOf(data)
      case Ok(r) => r
      case Thrown(_) => None
  }

  /** `validateKitchenFlowResult(raw)`; `parse` stands for `JSON.parse`, `None` for a throw. */
  function ValidateKitchenFlowResult(raw: string, parse: string -> Option<Json>): Option<FridgeScan> {
    KitchenFlowReply(parse(Clean(raw, true)))
  }

  /** For a reply with an item array, validation succeeds exactly when no item is `null` and
      every kept item converts. */
  lemma SnapshotOfSucceeds(data: Json)
    requires IsArray(Field(data, "items"))
    ensures (SnapshotOf(data).Ok? && SnapshotOf(data).value.Some?) <==>
              JNull !in ReplyItems(data) && MapOk(KeptItems(data), SnapshotItem).Ok?
  {
    var items := Field(data, "items");
    var elems := items.value.elems;
    KeepTestThrows(elems);
    if JNull !in elems {
      SnapshotOfUnfolds(data);
    }
  }

  lemma SnapshotOfUnfolds(data: Json)
    requires IsArray(Field(data, "items")) && JNull !in Field(data, "items").value.elems
    ensures FilterOk(Field(data, "items").value.elems, NamedPositive).Ok?
    ensures SnapshotOf(data) ==
      (var mapped :- MapOk(KeptItems(data), SnapshotItem); Ok(Some(FridgeScan(mapped, Or(Field(data, "scanQuality"), JStr("medium"))))))
  {
    KeepTestThrows(Field(data, "items").value.elems);
  }

  /** The validator gives `null` exactly when the reply does not parse, has no item array, holds
      a `null` item, or keeps an item whose name or unit is not a string. */
  lemma KitchenFlowResultNull(reply: Option<Json>)
    ensures KitchenFlowReply(reply).None? <==>
      reply.None? || !IsArray(Field(reply.value, "items")) || JNull in ReplyItems(reply.value)
      || exists k :: 0 <= k < |KeptItems(reply.value)| && SnapshotItem(KeptItems(reply.value)[k]).Thrown?
  {
    if reply.Some? && IsArray(Field(reply.value, "items")) {
      SnapshotOfSucceeds(reply.value);
    }
  }

  /** A successful validation maps the kept items one by one. */
  lemma SnapshotOfMapsKept(data: Json)
    requires SnapshotOf(data).Ok? && SnapshotOf(data).value.Some?
    ensures MapOk(KeptItems(data), SnapshotItem).Ok?
    ensures SnapshotOf(data).value.value == FridgeScan(MapOk(KeptItems(data), SnapshotItem).value, Or(Field(data, "scanQuality"), JStr("medium")))
  {
    var elems := ReplyItems(data);
    assert IsArray(Field(data, "items"));
    KeepTestThrows(elems);
    assert FilterOk(elems, NamedPositive) == Ok(KeptItems(data));
  }

  /** A result lists, in order, one item per kept reply item; the scan quality defaults to "medium". */
  lemma KitchenFlowResultItems(reply: Option<Json>)
    ensures var r := KitchenFlowReply(reply);
      r.Some? ==>
        && |r.value.items| == |KeptItems(reply.value)|
        && (forall k :: 0 <= k < |KeptItems(reply.value)| ==> SnapshotItem(KeptItems(reply.value)[k]) == Ok(r.value.items[k]))
        && r.value.scanQuality == Or(Field(reply.value, "scanQuality"), JStr("medium"))
  {
    if KitchenFlowReply(reply).Some? {
      var data := reply.value;
      assert SnapshotOf(data).Ok? && SnapshotOf(data).value == KitchenFlowReply(reply);
      SnapshotOfMapsKept(data);
    }
  }

  /** Every item of a result has a positive quantity. */
  lemma KitchenFlowQuantitiesPositive(reply: Option<Json>)
    ensures var r := KitchenFlowReply(reply);
      r.Some? ==> forall k :: 0 <= k < |r.value.items| ==> r.value.items[k].quantity.Finite? && r.value.items[k].quantity.value > 0.0
  {
    var r := KitchenFlowReply(reply);
    if r.Some? {
      KitchenFlowResultItems(reply);
      var kept := KeptItems(reply.value);
      var items := r.value.items;
      forall k | 0 <= k < |items|
        ensures items[k].quantity.Finite? && items[k].quantity.value > 0.0
      {
        KeptQuantityPositive(reply.value, k);
        assert SnapshotItem(kept[k]) == Ok(items[k]);
      }
    }
  }

  // ---------------------------------------------------------------- the craving analysis prompt

  const CravingHead := Join([
    "# Analyze Dish Ingredients",
    "",
    "## Dish: \""
  ], "\n")
  const CravingMiddle := Join([
    "\"",
    "",
    "## Task",
    "Extract the essential ingredients needed to cook this dish.",
    "- List CORE ingredients only (ignore garnishes, optional toppings)",
    "- Use simple, generic names (not brand names)",
    "- Estimate typical quantities for 2-3 servings",
    "",
    "## Output Format (JSON only)",
    "{",
    "  \"dishName\": \""
  ], "\n")
  const CravingTail := Join([
    "\",",
    "  \"cuisine\": \"Chinese/Western/Japanese/etc\",",
    "  \"difficulty\": \"easy/medium/hard\",",
    "  \"ingredients\": [",
    "    {\"name\": \"Ingredient name\", \"quantity\": 2, \"unit\": \"pcs/kg/L/etc\", \"essential\": true}",
    "  ],",
    "  \"estimatedTime\": \"30 minutes\"",
    "}",
    "",
    "Analyze now:"
  ], "\n")

  /** `generateCravingAnalysisPrompt(dishName)`. */
  function CravingAnalysisPrompt(dishName: string): string {
    CravingHead + dishName + CravingMiddle + dishName + CravingTail
  }

  /** The dish name is written twice: in the "## Dish" line and in the sample reply. */
  lemma CravingAnalysisPromptNamesDish(dishName: string)
    ensures OccursAt(CravingAnalysisPrompt(dishName), dishName, |CravingHead|)
    ensures OccursAt(CravingAnalysisPrompt(dishName), dishName, |CravingHead| + |dishName| + |CravingMiddle|)
  {
    Twice(CravingHead, dishName, CravingMiddle, CravingTail);
  }

  // ---------------------------------------------------------------- the craving analysis reply

  datatype DishIngredient = DishIngredient(name: Option<Json>, quantity: Number, unit: Option<Json>, essential: bool)

  datatype CravingAnalysis = CravingAnalysis(
    dishName: Option<Json>,
    cuisine: Json,
    difficulty: Json,
    ingredients: seq<DishIngredient>,
    estimatedTime: Json)

  /** One ingredient of the reply: only a `null` element throws, and an ingredient is essential
      unless the reply says exactly `false`. */
  function DishIngredientOf(i: Json): (r: Outcome<DishIngredient>)
    ensures r.Thrown? <==> i == JNull
    ensures r.Ok? ==> (r.value.essential <==> Field(i, "essential") != Some(JBool(false)))
    ensures r.Ok? ==> r.value.name == Field(i, "name") && r.value.unit == Field(i, "unit")
    ensures r.Ok? ==> r.value.quantity == ToNumber(Field(i, "quantity"))
  {
    var name :- Get(i, "name");
    Ok(DishIngredient(name, ToNumber(Field(i, "quantity")), Field(i, "unit"), Field(i, "essential") != Some(JBool(false))))
  }

  function CravingAnalysisOf(data: Json): Outcome<CravingAnalysis> {
    var dishName :- Get(data, "dishName");
    var elems :- ElementsOr(Field(data, "ingredients"));
    var ingredients :- MapOk(elems, DishIngredientOf);
    Ok(CravingAnalysis(dishName, Or(Field(data, "cuisine"), JStr("Unknown")), Or(Field(data, "difficulty"), JStr("medium")),
                       ingredients, Or(Field(data, "estimatedTime"), JStr("30 minutes"))))
  }

  function CravingAnalysisReply(reply: Option<Json>): Option<CravingAnalysis> {
    match reply
    case None => None
    case Some(data) => CravingAnalysisOf(data).ToOption()
  }

  /** `validateCravingAnalysisResult(raw)`. */
  function ValidateCravingAnalysisResult(raw: string, parse: string -> Option<Json>): Option<CravingAnalysis> {
    CravingAnalysisReply(parse(Clean(raw, true)))
  }

  /** `null` exactly when the reply does not parse, is `null`, has a truthy `ingredients` that is
      not an array, or lists a `null` ingredient. */
  lemma CravingAnalysisNull(reply: Option<Json>)
    ensures CravingAnalysisReply(reply).Some? <==>
      reply.Some? && reply.value != JNull && ElementsOr(Field(reply.value, "ingredients")).Ok?
      && JNull !in ElementsOr(Field(reply.value, "ingredients")).value
  {
    if reply.Some? && reply.value != JNull && ElementsOr(Field(reply.value, "ingredients")).Ok? {
      var elems := ElementsOr(Field(reply.value, "ingredients")).value;
      if JNull in elems {
        var i :| 0 <= i < |elems| && elems[i] == JNull;
        assert DishIngredientOf(elems[i]).Thrown?;
      }
    }
  }

  /** The defaults of a result, and the ingredient rule: one ingredient per reply element, in
      order, essential unless the reply says exactly `false`; no `ingredients` gives none. */
  lemma CravingAnalysisDefaults(reply: Option<Json>)
    ensures var r := CravingAnalysisReply(reply);
      r.Some? ==>
        var data := reply.value;
        var elems := ElementsOr(Field(data, "ingredients")).value;
        && r.value.dishName == Field(data, "dishName")
        && r.value.cuisine == Or(Field(data, "cuisine"), JStr("Unknown"))
        && r.value.difficulty == Or(Field(data, "difficulty"), JStr("medium"))
        && r.value.estimatedTime == Or(Field(data, "estimatedTime"), JStr("30 minutes"))
        && (!Truthy(Field(data, "ingredients")) ==> r.value.ingredients == [])
        && |r.value.ingredients| == |elems|
        && forall k :: 0 <= k < |elems| ==>
             (r.value.ingredients[k].essential <==> Field(elems[k], "essential") != Some(JBool(false)))
  {
    var r := CravingAnalysisReply(reply);
    if r.Some? {
      var data := reply.value;
      var elems := ElementsOr(Field(data, "ingredients")).value;
      var ingredients := MapOk(elems, DishIngredientOf);
      assert ingredients.Ok? && r.value.ingredients == ingredients.value;
      forall k | 0 <= k < |elems|
        ensures r.value.ingredients[k].essential <==> Field(elems[k], "essential") != Some(JBool(false))
      {
        assert DishIngredientOf(elems[k]) == Ok(r.value.ingredients[k]);
      }
    }
  }

  // ---------------------------------------------------------------- the shopping list prompt

  /** A dish the user wants to cook and the ingredients it needs. */
  datatype CravingNeeds = CravingNeeds(dishName: string, ingredients: seq<string>)

  /** A pantry staple and how well stocked it is, out of 100. */
  datatype Staple = Staple(name: string, usageScore: real)

  datatype ShoppingListPromptData = ShoppingListPromptData(
    currentInventory: seq<FreshItem>,
    cravings: seq<CravingNeeds>,
    pantryStaples: seq<Staple>,
    expiringItems: seq<FreshItem>)

  function InventoryLine(i: FreshItem): string {
    i.name + " (" + NumberText(i.quantity) + " " + i.unit + ", " + i.freshness + ")"
  }

  function CravingLine(c: CravingNeeds): string {
    c.dishName + ": needs [" + Join(c.ingredients, ", ") + "]"
  }

  function StapleLine(s: Staple): string {
    s.name + " (score: " + NumberText(s.usageScore) + "/100)"
  }

  function ExpiringLine(i: FreshItem): string {
    i.name + " (" + i.freshness + ")"
  }

  /** The staples running low: a usage score below 30. */
  function LowStaples(staples: seq<Staple>): seq<Staple> {
    Filter(staples, (s: Staple) => s.usageScore < 30.0)
  }

  /** `lines.join('\n') || placeholder`: the placeholder stands in exactly for an empty list,
      because none of the prompt's lines is empty. */
  function Section(lines: seq<string>, placeholder: string): (r: string)
    ensures lines == [] ==> r == placeholder
    ensures lines != [] && lines[0] != "" ==> r == Join(lines, "\n")
  {
    var text := Join(lines, "\n");
    if text == "" then
      assert lines != [] ==> lines[0] == "" by {
        if lines != [] && lines[0] != "" {
          JoinNonEmpty(lines, "\n");
        }
      }
      placeholder
    else text
  }

  const ShoppingHead := "# Generate Smart Shopping List\n\n"
  const ShoppingTail := Join([
    "## Task",
    "Generate a shopping list using this formula:",
    "**Shopping List = Cravings需求 + Staples补货 - Current Inventory**",
    "",
    "## Rules",
    "1. For each craving, list MISSING ingredients only",
    "2. Suggest recipes to use expiring items (if any)",
    "3. Ask about low staples (don't auto-add)",
    "4. Group by category (fresh/frozen/dry/dairy/meat)",
    "5. Add \"reason\" field explaining WHY each item is needed",
    "",
    "## Output Format (JSON only)",
    "{",
    "  \"items\": [",
    "    {",
    "      \"name\": \"Item name\",",
    "      \"quantity\": 2,",
    "      \"unit\": \"kg\",",
    "      \"category\": \"fresh\",",
    "      \"reason\": \"为了做清蒸鱼\",",
    "      \"priority\": \"high\"",
    "    }",
    "  ],",
    "  \"stapleSuggestions\": [",
    "    {\"name\": \"盐\", \"currentScore\": 25, \"question\": \"盐还够吗？\"}",
    "  ],",
    "  \"expirationRecipes\": [",
    "    {\"recipe\": \"Recipe name\", \"uses\": [\"expiring item 1\", \"expiring item 2\"]}",
    "  ],",
    "  \"totalEstimatedCost\": 50.00",
    "}",
    "",
    "Generate shopping list now:"
  ], "\n")

  /** `generateShoppingListPrompt(data)`. */
  function ShoppingListPrompt(data: ShoppingListPromptData): string {
    ShoppingHead
    + "## Current Inventory (Fresh Stock)\n" + Section(Map(data.currentInventory, InventoryLine), "(empty)")
    + "\n\n## Active Cravings (User wants to cook)\n" + Section(Map(data.cravings, CravingLine), "(none)")
    + "\n\n## Low Pantry Staples (< 30 score)\n" + Section(Map(LowStaples(data.pantryStaples), StapleLine), "(all good)")
    + "\n\n## Expiring Soon (use-soon or priority)\n" + Section(Map(data.expiringItems, ExpiringLine), "(none)")
    + "\n\n" + ShoppingTail
  }

  /** The staples section lists exactly the staples scored below 30, in order, and reads
      "(all good)" when there are none. */
  lemma StaplesSectionRule(staples: seq<Staple>)
    ensures forall s :: s in LowStaples(staples) <==> s in staples && s.usageScore < 30.0
    ensures LowStaples(staples) == [] ==> Section(Map(LowStaples(staples), StapleLine), "(all good)") == "(all good)"
    ensures (forall i :: 0 <= i < |staples| ==> staples[i].usageScore >= 30.0) ==> LowStaples(staples) == []
    ensures forall s :: s in staples && s.usageScore < 30.0 ==>
              Contains(Section(Map(LowStaples(staples), StapleLine), "(all good)"), StapleLine(s))
  {
    var p := (s: Staple) => s.usageScore < 30.0;
    forall s ensures s in LowStaples(staples) <==> s in staples && s.usageScore < 30.0 {
      FilterMembers(staples, p, s);
    }
    if forall i :: 0 <= i < |staples| ==> staples[i].usageScore >= 30.0 {
      FilterNone(staples, p);
    }
    var lines := Map(LowStaples(staples), StapleLine);
    forall s | s in staples && s.usageScore < 30.0
      ensures Contains(Section(lines, "(all good)"), StapleLine(s))
    {
      FilterMembers(staples, p, s);
      var k :| 0 <= k < |LowStaples(staples)| && LowStaples(staples)[k] == s;
      JoinContains(lines, "\n", k);
    }
  }

  // ---------------------------------------------------------------- the shopping list reply

  /** The lists of the reply are copied as they are, with `[]` for a missing or falsy one. */
  datatype ShoppingListResult = ShoppingListResult(
    items: Json,
    stapleSuggestions: Json,
    expirationRecipes: Json,
    totalEstimatedCost: Option<Json>)

  function ShoppingListOf(data: Json): Outcome<ShoppingListResult> {
    var items :- Get(data, "items");
    Ok(ShoppingListResult(Or(items, JArr([])), Or(Field(data, "stapleSuggestions"), JArr([])),
                          Or(Field(data, "expirationRecipes"), JArr([])), Field(data, "totalEstimatedCost")))
  }

  function ShoppingListReply(reply: Option<Json>): Option<ShoppingListResult> {
    match reply
    case None => None
    case Some(data) => ShoppingListOf(data).ToOption()
  }

  /** `validateShoppingListResult(raw)`. */
  function ValidateShoppingListResult(raw: string, parse: string -> Option<Json>): Option<ShoppingListResult> {
    ShoppingListReply(parse(Clean(raw, true)))
  }

  /** `null` exactly when the reply does not parse or is `null`; otherwise each list is the
      reply's own when truthy and `[]` otherwise, so none of them is ever falsy. */
  lemma ShoppingListDefaults(reply: Option<Json>)
    ensures var r := ShoppingListReply(reply);
      && (r.Some? <==> reply.Some? && reply.value != JNull)
      && (r.Some? ==>
            var data := reply.value;
            && r.value.items == Or(Field(data, "items"), JArr([]))
            && r.value.stapleSuggestions == Or(Field(data, "stapleSuggestions"), JArr([]))
            && r.value.expirationRecipes == Or(Field(data, "expirationRecipes"), JArr([]))
            && Truthy(Some(r.value.items)) && Truthy(Some(r.value.stapleSuggestions))
            && Truthy(Some(r.value.expirationRecipes))
            && r.value.totalEstimatedCost == Field(data, "totalEstimatedCost"))
  {
  }

  // ---------------------------------------------------------------- the receipt prompt and reply

  /** `generateReceiptPricePrompt()`. */
  const ReceiptPricePrompt := Join([
    "# Receipt Price Learning Scanner",
    "",
    "## Task",
    "Extract items and prices from this receipt for price tracking ONLY.",
    "DO NOT update inventory - this is for learning usual prices.",
    "",
    "## Output Format (JSON only)",
    "{",
    "  \"shopName\": \"Shop name\",",
    "  \"date\": \"YYYY-MM-DD\",",
    "  \"items\": [",
    "    {",
    "      \"name\": \"Item name\",",
    "      \"quantity\": 2,",
    "      \"unit\": \"kg\",",
    "      \"unitPrice\": 5.99,",
    "      \"totalPrice\": 11.98",
    "    }",
    "  ],",
    "  \"totalAmount\": 50.00,",
    "  \"scanQuality\": \"good\"",
    "}",
    "",
    "Scan receipt now:"
  ], "\n")

  datatype ReceiptLine = ReceiptLine(name: Option<Json>, quantity: Number, unit: Option<Json>, unitPrice: Number, totalPrice: Number)

  datatype ReceiptPrices = ReceiptPrices(
    shopName: Json,
    date: Option<Json>,
    items: seq<ReceiptLine>,
    totalAmount: real,
    scanQuality: Json)

  /** One line of the receipt: only a `null` element throws. */
  function ReceiptLineOf(i: Json): (r: Outcome<ReceiptLine>)
    ensures r.Thrown? <==> i == JNull
    ensures r.Ok? ==> r.value.name == Field(i, "name") && r.value.unit == Field(i, "unit")
    ensures r.Ok? ==> r.value.quantity == ToNumber(Field(i, "quantity"))
    ensures r.Ok? ==> r.value.unitPrice == ToNumber(Field(i, "unitPrice")) && r.value.totalPrice == ToNumber(Field(i, "totalPrice"))
  {
    var name :- Get(i, "name");
    Ok(ReceiptLine(name, ToNumber(Field(i, "quantity")), Field(i, "unit"), ToNumber(Field(i, "unitPrice")), ToNumber(Field(i, "totalPrice"))))
  }

  function ReceiptPricesOf(data: Json): Outcome<ReceiptPrices> {
    var shopName :- Get(data, "shopName");
    var elems :- ElementsOr(Field(data, "items"));
    var items :- MapOk(elems, ReceiptLineOf);
    Ok(ReceiptPrices(Or(shopName, JStr("Unknown")), Field(data, "date"), items,
                     NumberOr(Field(data, "totalAmount"), 0.0), Or(Field(data, "scanQuality"), JStr("medium"))))
  }

  function ReceiptPriceReply(reply: Option<Json>): Option<ReceiptPrices> {
    match reply
    case None => None
    case Some(data) => ReceiptPricesOf(data).ToOption()
  }

  /** `validateReceiptPriceResult(raw)`. */
  function ValidateReceiptPriceResult(raw: string, parse: string -> Option<Json>): Option<ReceiptPrices> {
    ReceiptPriceReply(parse(Clean(raw, true)))
  }

  /** `null` exactly when the reply does not parse, is `null`, has a truthy `items` that is not
      an array, or lists a `null` line. */
  lemma ReceiptPriceNull(reply: Option<Json>)
    ensures ReceiptPriceReply(reply).Some? <==>
      reply.Some? && reply.value != JNull && ElementsOr(Field(reply.value, "items")).Ok?
      && JNull !in ElementsOr(Field(reply.value, "items")).value
  {
    if reply.Some? && reply.value != JNull && ElementsOr(Field(reply.value, "items")).Ok? {
      var elems := ElementsOr(Field(reply.value, "items")).value;
      if JNull in elems {
        var i :| 0 <= i < |elems| && elems[i] == JNull;
        assert ReceiptLineOf(elems[i]).Thrown?;
      }
    }
  }

  /** The shop name defaults to "Unknown", a total that is NaN or 0 to 0, and the scan quality
      to "medium"; the lines are the reply's, one by one. */
  lemma ReceiptPriceDefaults(reply: Option<Json>)
    ensures var r := ReceiptPriceReply(reply);
      r.Some? ==>
        var data := reply.value;
        var elems := ElementsOr(Field(data, "items")).value;
        && r.value.shopName == Or(Field(data, "shopName"), JStr("Unknown"))
        && r.value.date == Field(data, "date")
        && (ToNumber(Field(data, "totalAmount")).NaN? ==> r.value.totalAmount == 0.0)
        && (ToNumber(Field(data, "totalAmount")).Finite? ==> r.value.totalAmount == ToNumber(Field(data, "totalAmount")).value)
        && r.value.scanQuality == Or(Field(data, "scanQuality"), JStr("medium"))
        && |r.value.items| == |elems|
        && forall k :: 0 <= k < |elems| ==> ReceiptLineOf(elems[k]) == Ok(r.value.items[k])
  {
    var r := ReceiptPriceReply(reply);
    if r.Some? {
      var data := reply.value;
      var elems := ElementsOr(Field(data, "items")).value;
      assert MapOk(elems, ReceiptLineOf).Ok? && r.value.items == MapOk(elems, ReceiptLineOf).value;
    }
  }

  // ---------------------------------------------------------------- the AR recipe prompt

  const ARHead := Join([
    "# AR Shopping Assistant - Reverse Recipe Lookup",
    "",
    "## Scanned Item in Store",
    "\""
  ], "\n")
  const ARMiddle := Join([
    "\"",
    "",
    "## User's Current Inventory at Home",
    ""
  ], "\n")
  const ARRecipes := Join([
    "",
    "",
    "## Task",
    "Suggest 2-3 quick recipes that can be made if user buys this scanned item.",
    "Prioritize recipes that USE existing inventory items.",
    "",
    "## Output Format (JSON only)",
    "{",
    "  \"scannedItem\": \""
  ], "\n")
  const ARTail := Join([
    "\",",
    "  \"recommendations\": [",
    "    {",
    "      \"recipe\": \"Recipe name\",",
    "      \"matchScore\": 85,",
    "      \"reason\": \"家里有牛排，买芦笋正好\",",
    "      \"additionalNeeds\": [\"butter\", \"garlic\"],",
    "      \"estimatedTime\": \"20 minutes\"",
    "    }",
    "  ]",
    "}",
    "",
    "Suggest recipes now:"
  ], "\n")

  /** `currentInventory.map(i => i.name).join(', ') || '(empty fridge)'`. */
  function ARInventoryText(inventory: seq<FreshItem>): (r: string)
    ensures Join(Map(inventory, (i: FreshItem) => i.name), ", ") == "" ==> r == "(empty fridge)"
    ensures Join(Map(inventory, (i: FreshItem) => i.name), ", ") != "" ==> r == Join(Map(inventory, (i: FreshItem) => i.name), ", ")
  {
    var names := Join(Map(inventory, (i: FreshItem) => i.name), ", ");
    if names == "" then "(empty fridge)" else names
  }

  /** The placeholder is used for an empty inventory and also for an inventory of one item with
      an empty name, and for nothing else. */
  lemma ARInventoryPlaceholder(inventory: seq<FreshItem>)
    ensures Join(Map(inventory, (i: FreshItem) => i.name), ", ") == "" <==>
              inventory == [] || (|inventory| == 1 && inventory[0].name == "")
  {
    var names := Map(inventory, (i: FreshItem) => i.name);
    if |inventory| >= 2 {
      JoinSeveral(names, ", ");
    }
  }

  /** `generateARRecipePrompt(scannedItem, currentInventory)`. */
  function ARRecipePrompt(scannedItem: string, inventory: seq<FreshItem>): string {
    ARHead + scannedItem + ARMiddle + ARInventoryText(inventory) + (ARRecipes + scannedItem + ARTail)
  }

  /** The scanned item is quoted under its heading, and the inventory text follows. */
  lemma ARRecipePromptParts(scannedItem: string, inventory: seq<FreshItem>)
    ensures OccursAt(ARRecipePrompt(scannedItem, inventory), scannedItem, |ARHead|)
    ensures OccursAt(ARRecipePrompt(scannedItem, inventory), ARInventoryText(inventory), |ARHead| + |scannedItem| + |ARMiddle|)
  {
    FiveParts(ARHead, scannedItem, ARMiddle, ARInventoryText(inventory), ARRecipes + scannedItem + ARTail);
  }

  // ---------------------------------------------------------------- the voice command prompt

  const VoiceHead := Join([
    "# Parse Voice Command",
    "",
    "## User said:",
    "\""
  ], "\n")
  const VoiceTail := Join([
    "\"",
    "",
    "## Task",
    "Determine intent and extract data.",
    "",
    "## Supported Intents",
    "1. \"add-craving\": User wants to eat something",
    "   - Examples: \"记一下想吃红烧肉\", \"周末想做冬阴功\"",
    "2. \"add-staple\": Reporting a staple is running low",
    "   - Examples: \"酱油没了\", \"盐快用完了\"",
    "3. \"remove-item\": Delete a craving",
    "   - Examples: \"删掉红烧肉\", \"不想吃冬阴功了\"",
    "",
    "## Output Format (JSON only)",
    "{",
    "  \"intent\": \"add-craving/add-staple/remove-item/unknown\",",
    "  \"confidence\": 0.95,",
    "  \"extractedData\": {",
    "    \"dishName\": \"红烧肉\",",
    "    \"itemName\": \"酱油\",",
    "    \"action\": \"remove\"",
    "  }",
    "}",
    "",
    "Parse now:"
  ], "\n")

  /** `generateVoiceParsePrompt(transcript)`. */
  function VoiceParsePrompt(transcript: string): string {
    VoiceHead + transcript + VoiceTail
  }

  /** The transcript is quoted under "## User said:". */
  lemma VoiceParsePromptQuotes(transcript: string)
    ensures OccursAt(VoiceParsePrompt(transcript), transcript, |VoiceHead|)
  {
    OccursBetween(VoiceHead, transcript, VoiceTail);
  }

  // ---------------------------------------------------------------- replies returned as parsed

  /** `validateARRecipeResult(raw)` and `validateVoiceParseResult(raw)`: the cleaned reply as
      `JSON.parse` gives it, without any check; a reply that parses to `null` is `null`. */
  function ParsedReply(raw: string, parse: string -> Option<Json>): (r: Option<Json>)
    ensures r.Some? <==> parse(Clean(raw, true)).Some? && parse(Clean(raw, true)).value != JNull
    ensures r.Some? ==> parse(Clean(raw, true)) == r
  {
    match parse(Clean(raw, true))
    case Some(JNull) => None
    case other => other
  }
}

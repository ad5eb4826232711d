/** What the app's Gemini service does with the model's replies (src/services/gemini.ts): the
    checks after `JSON.parse` in the craving identifiers and the recipe card, the fridge-scan
    validator, and the request and the error of `scanFridge`. The SDK call is a parameter
    `respond` from request parts to the reply text; a call that throws is `Thrown`. */
module GeminiApp {
  import opened Wrappers
  import opened Text
  import opened Seqs
  import opened Js
  import opened ModelOutput
  import opened Kitchen

  // ---------------------------------------------------------------- identifying a craving

  /** `data?.foodName && typeof data.foodName === 'string' ? { foodName: data.foodName.trim() } : null`:
      a name is returned exactly when the reply holds a non-empty string, and it is trimmed. */
  function FoodNameOf(data: Json): (r: Option<string>)
    ensures r.Some? <==> IsString(Field(data, "foodName")) && Field(data, "foodName").value.s != ""
    ensures r.Some? ==> r.value == Trim(Field(data, "foodName").value.s) && Trim(r.value) == r.value
  {
    var name := Field(data, "foodName");
    if Truthy(name) && IsString(name) then
      TrimIdempotent(name.value.s);
      Some(Trim(name.value.s))
    else None
  }

  /** The post-call part of `identifyCravingFromText` and `identifyCravingFromLink`: an empty
      reply text or one that does not parse gives `null`. */
  function IdentifiedCraving(text: string, parse: string -> Option<Json>): (r: Option<string>)
    ensures r.Some? <==> text != "" && parse(text).Some? && FoodNameOf(parse(text).value).Some?
    ensures r.Some? ==> r == FoodNameOf(parse(text).value)
  {
    if text == "" then None
    else
      match parse(text)
      case None => None
      case Some(data) => FoodNameOf(data)
  }

  /** A name of white space alone passes the check and comes back as the empty name. */
  lemma BlankFoodName()
    ensures FoodNameOf(JObj(map["foodName" := JStr(" ")])) == Some("")
  {
    var data := JObj(map["foodName" := JStr(" ")]);
    assert Field(data, "foodName") == Some(JStr(" "));
    TrimByEmptyIff(" ", IsJsSpace);
  }

  // ---------------------------------------------------------------- the recipe card

  /** `String(v).trim()`. */
  function TrimmedText(v: Json): (r: string)
    ensures r == Trim(ToStr(v)) && Trim(r) == r
  {
    TrimIdempotent(ToStr(v));
    Trim(ToStr(v))
  }

  /** `String(v ?? '').trim()`: trimmed text, empty for `undefined` and `null`. */
  function OptionalText(v: Option<Json>): (r: string)
    ensures Trim(r) == r
    ensures v.None? || v == Some(JNull) ==> r == ""
    ensures v.Some? && v.value != JNull ==> r == Trim(ToStr(v.value))
  {
    if v.None? || v == Some(JNull) then
      assert ToStr(JStr("")) == "";
      TrimByNoop("", IsJsSpace);
      TrimmedText(JStr(""))
    else TrimmedText(v.value)
  }

  /** `{ name: String(i?.name ?? '').trim(), icon: i?.icon ? String(i.icon) : undefined }`. */
  function RecipeIngredientOf(i: Json): (r: RecipeIngredient)
    ensures r.name == OptionalText(Field(i, "name"))
    ensures r.icon.None? <==> !Truthy(Field(i, "icon"))
    ensures r.icon.Some? ==> r.icon.value == ToStr(Field(i, "icon").value)
  {
    RecipeIngredient(OptionalText(Field(i, "name")),
                     if Truthy(Field(i, "icon")) then Some(ToStr(Field(i, "icon").value)) else None)
  }

  /** The checks and the normalisation of `getRecipeDetails` once the reply is parsed: a card
      exactly when the dish name is truthy and both lists are arrays, with every text trimmed
      (`String(x ?? '').trim()` for the optional ones), and one ingredient and one step per
      element, in order. */
  function RecipeOf(data: Json): (r: Option<RecipeDetails>)
    ensures r.Some? <==> Truthy(Field(data, "dishName")) && IsArray(Field(data, "ingredients")) && IsArray(Field(data, "steps"))
    ensures r.Some? ==>
      && r.value.dishName == Trim(ToStr(Field(data, "dishName").value))
      && Trim(r.value.dishName) == r.value.dishName
      && r.value.cuisine == OptionalText(Field(data, "cuisine"))
      && r.value.cookingTime == OptionalText(Field(data, "cookingTime"))
      && |r.value.ingredients| == |Field(data, "ingredients").value.elems|
      && (forall k :: 0 <= k < |r.value.ingredients| ==>
            r.value.ingredients[k] == RecipeIngredientOf(Field(data, "ingredients").value.elems[k]))
      && |r.value.steps| == |Field(data, "steps").value.elems|
      && (forall k :: 0 <= k < |r.value.steps| ==> r.value.steps[k] == OptionalText(Some(Field(data, "steps").value.elems[k])))
  {
    var dishName := Field(data, "dishName");
    var ingredients := Field(data, "ingredients");
    var steps := Field(data, "steps");
    if !Truthy(dishName) || !IsArray(ingredients) || !IsArray(steps) then None
    else
      Some(RecipeDetails(TrimmedText(dishName.value), OptionalText(Field(data, "cuisine")), OptionalText(Field(data, "cookingTime")),
                         Map(ingredients.value.elems, RecipeIngredientOf), Map(steps.value.elems, (s: Json) => OptionalText(Some(s)))))
  }

  /** The post-call part of `getRecipeDetails`: an empty reply text or one that does not parse
      gives `null`. */
  function RecipeFromReply(text: string, parse: string -> Option<Json>): (r: Option<RecipeDetails>)
    ensures r.Some? ==> text != "" && parse(text).Some? && r == RecipeOf(parse(text).value)
    ensures text != "" && parse(text).Some? ==> r == RecipeOf(parse(text).value)
  {
    if text == "" then None
    else
      match parse(text)
      case None => None
      case Some(data) => RecipeOf(data)
  }

  // ---------------------------------------------------------------- the fridge scan

  /** `FRIDGE_PROMPT`, sent as it is. */
  const FridgePrompt := Join([
    "# KitchenFlow - Smart Fridge Scanner",
    "Identify TOP 5-10 CORE ingredients only. Ignore trivial items.",
    "Focus on MAIN ingredients (vegetables, proteins, dairy, staples). IGNORE condiment bottles, sauce jars, small packets.",
    "Assess freshness: fresh (vibrant), use-soon (slight wilting), priority (use today).",
    "Output JSON only, no markdown:",
    "{",
    "  \"items\": [",
    "    {",
    "      \"name\": \"Baby Spinach\",",
    "      \"quantity\": 1,",
    "      \"unit\": \"bag\",",
    "      \"freshness\": \"use-soon\",",
    "      \"confidence\": 0.9,",
    "      \"visualNotes\": \"optional\"",
    "    }",
    "  ],",
    "  \"scanQuality\": \"good\"",
    "}",
    "Analyze the image(s) now:"
  ], "\n")

  /** `i.name && (i.quantity ?? 0) > 0`. A missing or `null` quantity compares as 0, which
      `i.quantity > 0` also rejects, so this is the test the other fridge validators use. */
  function NamedPositiveOrZero(i: Json): (r: Outcome<bool>)
    ensures r == NamedPositive(i)
  {
    var name :- Get(i, "name");
    if !Truthy(name) then Ok(false)
    else Ok(Positive(Some(Coalesce(Field(i, "quantity"), JNum(0.0)))))
  }

  /** One kept item: `String(i.name).trim()` never throws, but `(i.unit || 'pcs').trim()` does
      when the unit is truthy and not a string. */
  function AppFreshItem(i: Json): (r: Outcome<ScannedItem>)
    ensures r.Ok? <==> i != JNull && (!Truthy(Field(i, "unit")) || IsString(Field(i, "unit")))
    ensures r.Ok? ==> r.value.name == Trim(ToStrOpt(Field(i, "name")))
    ensures r.Ok? ==> Trim(r.value.name) == r.value.name
    ensures r.Ok? ==> r.value.unit == (if Truthy(Field(i, "unit")) then Trim(Field(i, "unit").value.s) else DefaultUnit)
    ensures r.Ok? ==> r.value.quantity == ToNumber(Some(Coalesce(Field(i, "quantity"), JNum(1.0))))
    ensures r.Ok? ==> r.value.freshness == Or(Field(i, "freshness"), JStr("fresh"))
    ensures r.Ok? ==> r.value.confidence == NumberOr(Field(i, "confidence"), 0.7) && r.value.confidence != 0.0
    ensures r.Ok? ==> r.value.visualNotes == Field(i, "visualNotes")
  {
    var name :- Get(i, "name");
    var unit :- UnitText(Field(i, "unit"));
    Ok(ScannedItem(NameText(name), ToNumber(Some(Coalesce(Field(i, "quantity"), JNum(1.0)))), unit,
                   Or(Field(i, "freshness"), JStr("fresh")), NumberOr(Field(i, "confidence"), 0.7), Field(i, "visualNotes")))
  }

  /** The body of the `try` block, once the reply is parsed; `Ok(None)` is the early `return null`. */
  function AppSnapshotOf(data: Json): Outcome<Option<FridgeScan>> {
    var items :- Get(data, "items");
    if !Truthy(items) || !IsArray(items) then Ok(None)
    else
      var kept :- FilterOk(items.value.elems, NamedPositiveOrZero);
      var mapped :- MapOk(kept, AppFreshItem);
      Ok(Some(FridgeScan(mapped, Or(Field(data, "scanQuality"), JStr("medium")))))
  }

  function AppFridgeReply(reply: Option<Json>): Option<FridgeScan> {
    match reply
    case None => None
    case Some(data) =>
      match AppSnapshotOf(data)
      case Ok(r) => r
      case Thrown(_) => None
  }

  /** `parseFridgeResult(raw)`; its second replacement is `/```/g`, which leaves the line break
      after a fence in place. */
  function AppParseFridgeResult(raw: string, parse: string -> Option<Json>): Option<FridgeScan> {
    AppFridgeReply(parse(Clean(raw, false)))
  }

  lemma AppSnapshotOfUnfolds(data: Json)
    requires IsArray(Field(data, "items")) && JNull !in Field(data, "items").value.elems
    ensures AppSnapshotOf(data) ==
      (var mapped :- MapOk(KeptItems(data), AppFreshItem); Ok(Some(FridgeScan(mapped, Or(Field(data, "scanQuality"), JStr("medium"))))))
  {
    var elems := Field(data, "items").value.elems;
    FilterOkCongruent(elems, NamedPositiveOrZero, NamedPositive);
    KeepTestThrows(elems);
  }

  /** `null` exactly when the reply does not parse, has no item array, holds a `null` item, or
      keeps an item whose unit is truthy and not a string. */
  lemma AppParseFridgeNull(reply: Option<Json>)
    ensures AppFridgeReply(reply).None? <==>
      reply.None? || !IsArray(Field(reply.value, "items")) || JNull in ReplyItems(reply.value)
      || exists k :: 0 <= k < |KeptItems(reply.value)| && AppFreshItem(KeptItems(reply.value)[k]).Thrown?
  {
    if reply.Some? && IsArray(Field(reply.value, "items")) {
      var elems := Field(reply.value, "items").value.elems;
      FilterOkCongruent(elems, NamedPositiveOrZero, NamedPositive);
      KeepTestThrows(elems);
      if JNull !in elems {
        AppSnapshotOfUnfolds(reply.value);
      }
    }
  }

  /** A result lists, in order, one item per reply item with a truthy name and a positive
      quantity; the scan quality defaults to "medium". */
  lemma AppParseFridgeItems(reply: Option<Json>)
    ensures var r := AppFridgeReply(reply);
      r.Some? ==>
        && |r.value.items| == |KeptItems(reply.value)|
        && (forall k :: 0 <= k < |KeptItems(reply.value)| ==> AppFreshItem(KeptItems(reply.value)[k]) == Ok(r.value.items[k]))
        && r.value.scanQuality == Or(Field(reply.value, "scanQuality"), JStr("medium"))
  {
    if AppFridgeReply(reply).Some? {
      var data := reply.value;
      assert AppSnapshotOf(data).Ok? && AppSnapshotOf(data).value == AppFridgeReply(reply);
      var elems := Field(data, "items").value.elems;
      FilterOkCongruent(elems, NamedPositiveOrZero, NamedPositive);
      KeepTestThrows(elems);
      AppSnapshotOfUnfolds(data);
    }
  }

  /** `scanFridge` sends one inline part per image, in order, and then the prompt. */
  function AppScanParts(images: seq<ImageData>): (r: seq<Part>)
    ensures |r| == |images| + 1 && r[|images|] == TextPart(FridgePrompt)
    ensures forall k :: 0 <= k < |images| ==> r[k] == InlineData(images[k].mimeType, images[k].base64)
  {
    Map(images, ImagePart) + [TextPart(FridgePrompt)]
  }

  const NoScanResult := "Gemini 未返回扫描结果"
  const ScanParseFailed := "解析扫描结果失败"

  /** `scanFridge(images)`: an empty reply text and a reply the validator rejects both throw. */
  function ScanFridge(images: seq<ImageData>, respond: seq<Part> -> Outcome<string>, parse: string -> Option<Json>): (r: Outcome<FridgeScan>)
    ensures var reply := respond(AppScanParts(images));
      r.Ok? <==> reply.Ok? && reply.value != "" && AppParseFridgeResult(reply.value, parse).Some?
    ensures r.Ok? ==> AppParseFridgeResult(respond(AppScanParts(images)).value, parse) == Some(r.value)
    ensures var reply := respond(AppScanParts(images));
      && (reply.Thrown? ==> r == Thrown(reply.message))
      && (reply.Ok? && reply.value == "" ==> r == Thrown(NoScanResult))
      && (reply.Ok? && reply.value != "" && AppParseFridgeResult(reply.value, parse).None? ==> r == Thrown(ScanParseFailed))
  {
    var text :- respond(AppScanParts(images));
    if text == "" then Thrown(NoScanResult)
    else
      match AppParseFridgeResult(text, parse)
      case None => Thrown(ScanParseFailed)
      case Some(result) => Ok(result)
  }
}

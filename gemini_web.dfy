/** The web client's Gemini service (kitchenflow-web/src/services/gemini.ts): the request parts
    `callGemini` assembles, the fridge-scan and dish-analysis validators, and the dish prompt.
    The HTTP call is a parameter `respond` from request parts to the reply text; a call that
    fails is `Thrown`. The fridge prompt is the same text as the app's. */
module GeminiWeb {
  import opened Wrappers
  import opened Text
  import opened Seqs
  import opened Js
  import opened ModelOutput
  import opened Kitchen
  import GeminiApp

  // ---------------------------------------------------------------- the request

  /** The parts of `callGemini(prompt, images)`: the prompt first, then one inline part per
      image, in order. */
  method RequestParts(prompt: string, images: seq<ImageData>) returns (parts: seq<Part>)
    ensures |parts| == |images| + 1 && parts[0] == TextPart(prompt)
    ensures forall k :: 0 <= k < |images| ==> parts[k + 1] == InlineData(images[k].mimeType, images[k].base64)
  {
    parts := [TextPart(prompt)];
    var i := 0;
    while i < |images|
      invariant 0 <= i <= |images|
      invariant |parts| == i + 1 && parts[0] == TextPart(prompt)
      invariant forall k :: 0 <= k < i ==> parts[k + 1] == InlineData(images[k].mimeType, images[k].base64)
    {
      parts := parts + [InlineData(images[i].mimeType, images[i].base64)];
      i := i + 1;
    }
  }

  const NoText := "Gemini 未返回文本"
  const ScanParseFailed := "解析扫描结果失败"
  const DishParseFailed := "解析菜谱结果失败"

  /** `callGemini(prompt, images)` up to the reply text: an empty text throws. */
  method CallGemini(prompt: string, images: seq<ImageData>, respond: seq<Part> -> Outcome<string>) returns (r: Outcome<string>)
    ensures r.Ok? ==> r.value != ""
    ensures r.Ok? <==> respond([TextPart(prompt)] + Map(images, ImagePart)).Ok? && respond([TextPart(prompt)] + Map(images, ImagePart)).value != ""
    ensures r.Ok? ==> r == respond([TextPart(prompt)] + Map(images, ImagePart))
    ensures var reply := respond([TextPart(prompt)] + Map(images, ImagePart));
      && (reply.Thrown? ==> r == reply)
      && (reply.Ok? && reply.value == "" ==> r == Thrown(NoText))
  {
    var parts := RequestParts(prompt, images);
    assert parts == [TextPart(prompt)] + Map(images, ImagePart);
    r := respond(parts);
    if r.Ok? && r.value == "" {
      r := Thrown(NoText);
    }
  }

  // ---------------------------------------------------------------- the fridge scan

  /** One kept item: `String(i.name).trim()` never throws, but `(i.unit || 'pcs').trim()` does
      when the unit is truthy and not a string. */
  function WebFreshItem(i: Json): (r: Outcome<ScannedItem>)
    ensures r.Ok? <==> i != JNull && (!Truthy(Field(i, "unit")) || IsString(Field(i, "unit")))
    ensures r.Ok? ==> r.value.name == Trim(ToStrOpt(Field(i, "name"))) && Trim(r.value.name) == r.value.name
    ensures r.Ok? ==> r.value.unit == (if Truthy(Field(i, "unit")) then Trim(Field(i, "unit").value.s) else DefaultUnit)
    ensures r.Ok? ==> r.value.quantity == ToNumber(Field(i, "quantity"))
    ensures r.Ok? ==> r.value.freshness == Or(Field(i, "freshness"), JStr("fresh"))
    ensures r.Ok? ==> r.value.confidence == NumberOr(Field(i, "confidence"), 0.7) && r.value.confidence != 0.0
    ensures r.Ok? ==> r.value.visualNotes == Field(i, "visualNotes")
  {
    var name :- Get(i, "name");
    var unit :- UnitText(Field(i, "unit"));
    Ok(ScannedItem(NameText(name), ToNumber(Field(i, "quantity")), unit,
                   Or(Field(i, "freshness"), JStr("fresh")), NumberOr(Field(i, "confidence"), 0.7), Field(i, "visualNotes")))
  }

  function WebSnapshotOf(data: Json): Outcome<Option<FridgeScan>> {
    var items :- Get(data, "items");
    if !Truthy(items) || !IsArray(items) then Ok(None)
    else
      var kept :- FilterOk(items.value.elems, NamedPositive);
      var mapped :- MapOk(kept, WebFreshItem);
      Ok(Some(FridgeScan(mapped, Or(Field(data, "scanQuality"), JStr("medium")))))
  }

  function WebFridgeReply(reply: Option<Json>): Option<FridgeScan> {
    match reply
    case None => None
    case Some(data) =>
      match WebSnapshotOf(data)
      case Ok(r) => r
      case Thrown(_) => None
  }

  /** `parseFridgeResult(raw)`, with the same cleaning as the app's. */
  function WebParseFridgeResult(raw: string, parse: string -> Option<Json>): Option<FridgeScan> {
    WebFridgeReply(parse(Clean(raw, false)))
  }

  /** On a kept item, whose quantity is positive and so neither missing nor `null`, the app's
      `Number(i.quantity ?? 1)` is `Number(i.quantity)`: the two item maps agree. */
  lemma KeptItemsAgree(data: Json)
    ensures forall k :: 0 <= k < |KeptItems(data)| ==> GeminiApp.AppFreshItem(KeptItems(data)[k]) == WebFreshItem(KeptItems(data)[k])
  {
    forall k | 0 <= k < |KeptItems(data)|
      ensures GeminiApp.AppFreshItem(KeptItems(data)[k]) == WebFreshItem(KeptItems(data)[k])
    {
      var i := KeptItems(data)[k];
      KeptQuantityPositive(data, k);
      assert Coalesce(Field(i, "quantity"), JNum(1.0)) == Field(i, "quantity").value;
    }
  }

  /** The web client and the app validate every fridge reply the same way, although the app
      writes its item test and its quantity with `?? 0` and `?? 1`. */
  lemma ParseFridgeResultsAgree(raw: string, parse: string -> Option<Json>)
    ensures WebParseFridgeResult(raw, parse) == GeminiApp.AppParseFridgeResult(raw, parse)
  {
    var reply := parse(Clean(raw, false));
    if reply.Some? {
      SnapshotsAgree(reply.value);
    }
  }

  /** For every parsed reply the two bodies of the `try` block end the same way, throwing the
      same error or returning the same result. */
  lemma SnapshotsAgree(data: Json)
    ensures WebSnapshotOf(data) == GeminiApp.AppSnapshotOf(data)
  {
    var items := Field(data, "items");
    if data != JNull && Truthy(items) && IsArray(items) {
      var elems := items.value.elems;
      FilterOkCongruent(elems, GeminiApp.NamedPositiveOrZero, NamedPositive);
      KeepTestThrows(elems);
      if JNull !in elems {
        assert FilterOk(elems, NamedPositive) == Ok(KeptItems(data));
        KeptItemsAgree(data);
        MapOkCongruent(KeptItems(data), GeminiApp.AppFreshItem, WebFreshItem);
      }
    }
  }

  /** `null` exactly when the reply does not parse, has no item array, holds a `null` item, or
      keeps an item whose unit is truthy and not a string. */
  lemma WebParseFridgeNull(reply: Option<Json>)
    ensures WebFridgeReply(reply).None? <==>
      reply.None? || !IsArray(Field(reply.value, "items")) || JNull in ReplyItems(reply.value)
      || exists k :: 0 <= k < |KeptItems(reply.value)| && WebFreshItem(KeptItems(reply.value)[k]).Thrown?
  {
    if reply.Some? && IsArray(Field(reply.value, "items")) {
      var elems := Field(reply.value, "items").value.elems;
      KeepTestThrows(elems);
      if JNull !in elems {
        WebSnapshotOfUnfolds(reply.value);
        var mapped := MapOk(KeptItems(reply.value), WebFreshItem);
        assert WebFridgeReply(reply).None? <==> mapped.Thrown?;
      } else {
        assert WebSnapshotOf(reply.value).Thrown?;
      }
    }
  }

  lemma WebSnapshotOfUnfolds(data: Json)
    requires IsArray(Field(data, "items")) && JNull !in Field(data, "items").value.elems
    ensures WebSnapshotOf(data) ==
      (var mapped :- MapOk(KeptItems(data), WebFreshItem); Ok(Some(FridgeScan(mapped, Or(Field(data, "scanQuality"), JStr("medium"))))))
  {
    KeepTestThrows(Field(data, "items").value.elems);
  }

  /** A result lists, in order, one item per reply item with a truthy name and a positive
      quantity, with that quantity; the scan quality defaults to "medium". */
  lemma WebParseFridgeItems(reply: Option<Json>)
    ensures var r := WebFridgeReply(reply);
      r.Some? ==>
        && |r.value.items| == |KeptItems(reply.value)|
        && (forall k :: 0 <= k < |KeptItems(reply.value)| ==> WebFreshItem(KeptItems(reply.value)[k]) == Ok(r.value.items[k]))
        && (forall k :: 0 <= k < |r.value.items| ==> r.value.items[k].quantity.Finite? && r.value.items[k].quantity.value > 0.0)
        && r.value.scanQuality == Or(Field(reply.value, "scanQuality"), JStr("medium"))
  {
    var r := WebFridgeReply(reply);
    if r.Some? {
      var data := reply.value;
      assert WebSnapshotOf(data).Ok? && WebSnapshotOf(data).value == r;
      var elems := Field(data, "items").value.elems;
      KeepTestThrows(elems);
      assert FilterOk(elems, NamedPositive) == Ok(KeptItems(data));
      var kept := KeptItems(data);
      assert MapOk(kept, WebFreshItem).Ok? && r.value.items == MapOk(kept, WebFreshItem).value;
      forall k | 0 <= k < |r.value.items|
        ensures r.value.items[k].quantity.Finite? && r.value.items[k].quantity.value > 0.0
      {
        KeptQuantityPositive(data, k);
      }
    }
  }

  /** `scanFridge(images)`: the reply to the fridge prompt and the images, validated; a reply
      the validator rejects throws. */
  method WebScanFridge(images: seq<ImageData>, respond: seq<Part> -> Outcome<string>, parse: string -> Option<Json>)
    returns (r: Outcome<FridgeScan>)
    ensures var reply := respond([TextPart(GeminiApp.FridgePrompt)] + Map(images, ImagePart));
      r.Ok? <==> reply.Ok? && reply.value != "" && WebParseFridgeResult(reply.value, parse).Some?
    ensures r.Ok? ==> WebParseFridgeResult(respond([TextPart(GeminiApp.FridgePrompt)] + Map(images, ImagePart)).value, parse) == Some(r.value)
    ensures var reply := respond([TextPart(GeminiApp.FridgePrompt)] + Map(images, ImagePart));
      && (reply.Thrown? ==> r == Thrown(reply.message))
      && (reply.Ok? && reply.value == "" ==> r == Thrown(NoText))
      && (reply.Ok? && reply.value != "" && WebParseFridgeResult(reply.value, parse).None? ==> r == Thrown(ScanParseFailed))
  {
    var text := CallGemini(GeminiApp.FridgePrompt, images, respond);
    if text.Thrown? {
      return Thrown(text.message);
    }
    var result := WebParseFridgeResult(text.value, parse);
    if result.None? {
      return Thrown(ScanParseFailed);
    }
    return Ok(result.value);
  }

  // ---------------------------------------------------------------- the dish analysis

  const DishHead := "# Analyze Dish Ingredients\nDish: \""
  const DishMiddle := Join([
    "\"",
    "Extract essential ingredients for 2-3 servings. Output JSON only:",
    "{",
    "  \"dishName\": \""
  ], "\n")
  const DishTail := Join([
    "\",",
    "  \"cuisine\": \"string\",",
    "  \"difficulty\": \"easy/medium/hard\",",
    "  \"requiredIngredients\": [\"Ingredient 1\", \"Ingredient 2\"],",
    "  \"estimatedTime\": \"30 minutes\",",
    "  \"servings\": 3",
    "}",
    "Analyze now:"
  ], "\n")

  /** `cravingPrompt(dishName)`, sent as it is. */
  function CravingPrompt(dishName: string): string {
    DishHead + dishName + DishMiddle + dishName + DishTail
  }

  /** The dish name is written twice: in the "Dish:" line and in the sample reply. */
  lemma CravingPromptNamesDish(dishName: string)
    ensures OccursAt(CravingPrompt(dishName), dishName, |DishHead|)
    ensures OccursAt(CravingPrompt(dishName), dishName, |DishHead| + |dishName| + |DishMiddle|)
  {
    Twice(DishHead, dishName, DishMiddle, DishTail);
  }

  /** `CravingAnalysisResult`: every field is the reply's own, unchecked. */
  datatype CravingResult = CravingResult(
    dishName: Json,
    requiredIngredients: seq<Json>,
    cuisine: Option<Json>,
    difficulty: Option<Json>,
    estimatedTime: Option<Json>,
    servings: Option<Json>)

  /** The checks of `parseCravingResult` once the reply is parsed: a result exactly when the
      dish name is truthy and the ingredients are an array; reading a property of `null` throws. */
  function CravingResultOf(data: Json): (r: Outcome<Option<CravingResult>>)
    ensures r.Thrown? <==> data == JNull
    ensures r.Ok? ==> (r.value.Some? <==> Truthy(Field(data, "dishName")) && IsArray(Field(data, "requiredIngredients")))
    ensures r.Ok? && r.value.Some? ==>
      && Some(r.value.value.dishName) == Field(data, "dishName")
      && r.value.value.requiredIngredients == Field(data, "requiredIngredients").value.elems
      && r.value.value.cuisine == Field(data, "cuisine") && r.value.value.difficulty == Field(data, "difficulty")
      && r.value.value.estimatedTime == Field(data, "estimatedTime") && r.value.value.servings == Field(data, "servings")
  {
    var dishName :- Get(data, "dishName");
    var ingredients := Field(data, "requiredIngredients");
    if !Truthy(dishName) || !IsArray(ingredients) then Ok(None)
    else
      Ok(Some(CravingResult(dishName.value, ingredients.value.elems, Field(data, "cuisine"), Field(data, "difficulty"),
                            Field(data, "estimatedTime"), Field(data, "servings"))))
  }

  function CravingReply(reply: Option<Json>): Option<CravingResult> {
    match reply
    case None => None
    case Some(data) =>
      match CravingResultOf(data)
      case Ok(r) => r
      case Thrown(_) => None
  }

  /** `parseCravingResult(raw)`. */
  function ParseCravingResult(raw: string, parse: string -> Option<Json>): Option<CravingResult> {
    CravingReply(parse(Clean(raw, false)))
  }

  /** `null` exactly when the reply does not parse, is `null`, lacks a truthy dish name, or has
      no ingredient array. */
  lemma ParseCravingNull(reply: Option<Json>)
    ensures CravingReply(reply).Some? <==>
      reply.Some? && reply.value != JNull && Truthy(Field(reply.value, "dishName")) && IsArray(Field(reply.value, "requiredIngredients"))
  {
  }

  /** `analyzeCraving(dishName)`: the prompt is built from the trimmed dish name, and a reply
      that fails validation throws. */
  method AnalyzeCraving(dishName: string, respond: seq<Part> -> Outcome<string>, parse: string -> Option<Json>)
    returns (r: Outcome<CravingResult>)
    ensures var reply := respond([TextPart(CravingPrompt(Trim(dishName)))]);
      r.Ok? <==> reply.Ok? && reply.value != "" && ParseCravingResult(reply.value, parse).Some?
    ensures r.Ok? ==> ParseCravingResult(respond([TextPart(CravingPrompt(Trim(dishName)))]).value, parse) == Some(r.value)
    ensures var reply := respond([TextPart(CravingPrompt(Trim(dishName)))]);
      && (reply.Thrown? ==> r == Thrown(reply.message))
      && (reply.Ok? && reply.value == "" ==> r == Thrown(NoText))
      && (reply.Ok? && reply.value != "" && ParseCravingResult(reply.value, parse).None? ==> r == Thrown(DishParseFailed))
  {
    var text := CallGemini(CravingPrompt(Trim(dishName)), [], respond);
    assert [TextPart(CravingPrompt(Trim(dishName)))] + Map([], ImagePart) == [TextPart(CravingPrompt(Trim(dishName)))];
    if text.Thrown? {
      return Thrown(text.message);
    }
    var result := ParseCravingResult(text.value, parse);
    if result.None? {
      return Thrown(DishParseFailed);
    }
    return Ok(result.value);
  }

  /** Surrounding white space in the dish name does not change the request. */
  lemma AnalyzeCravingTrims(dishName: string)
    ensures CravingPrompt(Trim(Trim(dishName))) == CravingPrompt(Trim(dishName))
    ensures OccursAt(CravingPrompt(Trim(dishName)), Trim(dishName), |DishHead|)
  {
    TrimIdempotent(dishName);
    CravingPromptNamesDish(Trim(dishName));
  }
}

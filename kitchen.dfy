/** The entities the pages and services pass around. Fields that the validators copy
    from a model reply without checking their type stay `Json`. */
module Kitchen {
  import opened Wrappers
  import opened Text
  import opened Js

  /** The unit validators give an item whose reply has none. */
  const DefaultUnit := "pcs"

  /** The default unit is already trimmed ... */
  lemma DefaultUnitTrimmed()
    ensures Trim(DefaultUnit) == DefaultUnit
  {
    var p := DefaultUnit;
    assert p[0] == 'p' && p[2] == 's';
    TrimByNoop(p, IsJsSpace);
  }

  /** ... and lower-case. */
  lemma DefaultUnitLower()
    ensures Lower(DefaultUnit) == DefaultUnit
  {
    var l := Lower(DefaultUnit);
    assert |l| == 3 && l[0] == 'p' && l[1] == 'c' && l[2] == 's';
  }

  /** `(i.unit || 'pcs').trim()`: a falsy unit gives 'pcs', a string unit its trimmed text,
      and any other truthy unit throws, having no `trim` method. */
  function UnitText(u: Option<Json>): (r: Outcome<string>)
    ensures r.Ok? <==> !Truthy(u) || IsString(u)
    ensures r.Ok? ==> r.value == if Truthy(u) then Trim(u.value.s) else DefaultUnit
  {
    DefaultUnitTrimmed();
    TrimValue(Some(Or(u, JStr(DefaultUnit))))
  }

  /** `String(i.name).trim()`, which never throws, and is already trimmed. */
  function NameText(name: Option<Json>): (r: string)
    ensures r == Trim(ToStrOpt(name)) && Trim(r) == r
  {
    TrimIdempotent(ToStrOpt(name));
    Trim(ToStrOpt(name))
  }

  /** An item as a fridge-scan validator returns it: `name` and `unit` are checked strings,
      `quantity` is `Number(...)` of the reply's value, the rest is copied through. */
  datatype ScannedItem = ScannedItem(
    name: string,
    quantity: Number,
    unit: string,
    freshness: Json,
    confidence: real,
    visualNotes: Option<Json>)

  /** A validated fridge scan. */
  datatype FridgeScan = FridgeScan(items: seq<ScannedItem>, scanQuality: Json)

  /** A scanned ingredient as the pages hold it (`FreshItem`). */
  datatype FreshItem = FreshItem(
    name: string,
    quantity: real,
    unit: string,
    freshness: string,
    confidence: real,
    visualNotes: Option<string>,
    storageLocation: Option<string>)

  /** A scan result as the pages hold it (`FridgeSnapshotResult`). */
  datatype FridgeSnapshot = FridgeSnapshot(items: seq<FreshItem>, scanQuality: Option<string>)

  /** An entry of the shopping list. */
  datatype ShoppingItem = ShoppingItem(id: string, name: string, quantity: Option<string>, checked: bool, addedAt: int)

  /** Where an inventory item is kept. */
  datatype Location = Fridge | Freezer | Pantry

  /** An entry of the inventory. */
  datatype InventoryItem = InventoryItem(
    id: string,
    name: string,
    quantity: real,
    unit: string,
    freshness: string,
    location: Location,
    addedAt: int)

  datatype RecipeIngredient = RecipeIngredient(name: string, icon: Option<string>)

  /** A recipe card's details. */
  datatype RecipeDetails = RecipeDetails(
    dishName: string,
    cuisine: string,
    cookingTime: string,
    ingredients: seq<RecipeIngredient>,
    steps: seq<string>)

  /** An image as the pages pass it to the services: base64 payload and MIME type. */
  datatype ImageData = ImageData(base64: string, mimeType: string)

  /** One part of a model request: the prompt text or an inline image. */
  datatype Part = TextPart(text: string) | InlineData(mimeType: string, data: string)

  /** The request part carrying an image. */
  function ImagePart(img: ImageData): Part {
    InlineData(img.mimeType, img.base64)
  }

  /** What a call to the backend did: succeeded, or threw; a thrown `Error` carries its
      message, anything else thrown does not. */
  datatype Backend = Succeeded | Failed(message: Option<string>)

  /** `e instanceof Error ? e.message : fallback`. */
  function ErrorText(b: Backend, fallback: string): string
    requires b.Failed?
  {
    b.message.GetOr(fallback)
  }
}

/** The cravings page (src/pages/Cravings.tsx): a dish is identified from a description or a
    link, its recipe fetched, and a card for it put at the head of the list; opening a card
    without a recipe fetches one and attaches it to that card. The identification and recipe
    services are parameters, and so is each new card's id. */
module Cravings {
  import opened Wrappers
  import opened Text
  import opened Seqs
  import opened Kitchen

  datatype InputMode = TextMode | LinkMode

  const PlaceholderImage := "https://images.unsplash.com/photo-1546069901-ba9599a7e63c?q=80&w=400&auto=format&fit=crop"

  /** A card: its dish, the placeholder image, and the recipe once there is one. */
  datatype CravingCard = CravingCard(id: string, name: string, image: string, recipe: Option<RecipeDetails>)

  const EmptyCraving := "请输入想吃的菜名或描述"
  const RecipeFailed := "获取食谱失败，请重试或换一种说法"
  const EmptyLink := "请粘贴食谱或美食链接"
  const LinkUnrecognised := "未能从链接识别菜名，请换一个链接"

  /** `(identified?.foodName ?? raw).trim()`: the identified name, or the typed text when
      identification gave nothing. */
  function TextFoodName(raw: string, identified: Option<string>): (r: string)
    ensures identified.None? ==> r == Trim(raw)
    ensures identified.Some? ==> r == Trim(identified.value)
  {
    Trim(identified.GetOr(raw))
  }

  /** `prev.map(c => c.id === id ? { ...c, recipe } : c)`. */
  function WithRecipe(cards: seq<CravingCard>, id: string, recipe: RecipeDetails): seq<CravingCard> {
    Map(cards, (c: CravingCard) => if c.id == id then c.(recipe := Some(recipe)) else c)
  }

  /** Attaching a recipe keeps every card's id, name and place, changes only the cards with
      the id, and only their recipe. */
  lemma WithRecipeAt(cards: seq<CravingCard>, id: string, recipe: RecipeDetails)
    ensures |WithRecipe(cards, id, recipe)| == |cards|
    ensures forall k :: 0 <= k < |cards| ==> WithRecipe(cards, id, recipe)[k].id == cards[k].id && WithRecipe(cards, id, recipe)[k].name == cards[k].name
    ensures forall k :: 0 <= k < |cards| && cards[k].id == id ==> WithRecipe(cards, id, recipe)[k].recipe == Some(recipe)
    ensures forall k :: 0 <= k < |cards| && cards[k].id != id ==> WithRecipe(cards, id, recipe)[k] == cards[k]
  {
  }

  /** Attaching the same recipe again changes nothing. */
  lemma WithRecipeIdempotent(cards: seq<CravingCard>, id: string, recipe: RecipeDetails)
    ensures WithRecipe(WithRecipe(cards, id, recipe), id, recipe) == WithRecipe(cards, id, recipe)
  {
    var once := WithRecipe(cards, id, recipe);
    var twice := WithRecipe(once, id, recipe);
    forall k | 0 <= k < |cards| ensures twice[k] == once[k] {
      assert once[k].id == cards[k].id;
    }
  }

  /** What an analysis comes to once the input is not blank: an error message, or the dish
      and recipe of a new card. */
  datatype Analysis = Rejected(message: string) | Found(name: string, recipe: Option<RecipeDetails>)

  function CardFor(id: string, a: Analysis): CravingCard
    requires a.Found?
  {
    CravingCard(id, a.name, PlaceholderImage, a.recipe)
  }

  /** Text mode after the blank check on `raw`: a thrown error is shown; a blank identified
      name and a missing recipe are refused; otherwise the card has the name and the recipe. */
  function TextAnalysis(raw: string, identify: string -> Outcome<Option<string>>, recipeOf: string -> Outcome<Option<RecipeDetails>>): (a: Analysis)
    ensures a.Found? ==> a.name != "" && a.recipe.Some?
  {
    match identify(raw)
    case Thrown(m) => Rejected(m)
    case Ok(identified) =>
      var name := TextFoodName(raw, identified);
      if name == "" then Rejected(EmptyCraving)
      else
        match recipeOf(name)
        case Thrown(m) => Rejected(m)
        case Ok(None) => Rejected(RecipeFailed)
        case Ok(Some(r)) => Found(name, Some(r))
  }

  /** Link mode after the blank check on `url`: an empty or missing name is refused; the card
      is made whether or not a recipe came back. */
  function LinkAnalysis(url: string, identify: string -> Outcome<Option<string>>, recipeOf: string -> Outcome<Option<RecipeDetails>>): (a: Analysis)
    ensures a.Found? ==> a.name != "" && identify(url) == Ok(Some(a.name))
  {
    match identify(url)
    case Thrown(m) => Rejected(m)
    case Ok(identified) =>
      if identified.GetOr("") == "" then Rejected(LinkUnrecognised)
      else
        match recipeOf(identified.value)
        case Thrown(m) => Rejected(m)
        case Ok(recipe) => Found(identified.value, recipe)
  }

  /** When the recipe service has none for a dish, link mode still adds its card and text mode
      refuses it. */
  lemma NoRecipeModes(text: string, name: string, identify: string -> Outcome<Option<string>>, recipeOf: string -> Outcome<Option<RecipeDetails>>)
    requires name != "" && Trim(name) == name && identify(text) == Ok(Some(name)) && recipeOf(name) == Ok(None)
    ensures LinkAnalysis(text, identify, recipeOf) == Found(name, None)
    ensures TextAnalysis(text, identify, recipeOf) == Rejected(RecipeFailed)
  {
  }

  /** In text mode a failed identification falls back to the typed text. */
  lemma TextFallsBackToInput(raw: string, identify: string -> Outcome<Option<string>>, recipeOf: string -> Outcome<Option<RecipeDetails>>, r: RecipeDetails)
    requires raw != "" && Trim(raw) == raw && identify(raw) == Ok(None) && recipeOf(raw) == Ok(Some(r))
    ensures TextAnalysis(raw, identify, recipeOf) == Found(raw, Some(r))
  {
  }

  class CravingsPage {
    var mode: InputMode
    var input: string
    var linkInput: string
    var loading: bool
    var error: string
    var cards: seq<CravingCard>
    var modalCard: Option<CravingCard>
    var loadingCardId: Option<string>

    constructor ()
      ensures mode == TextMode && input == "" && linkInput == "" && !loading && error == ""
      ensures cards == [] && modalCard == None && loadingCardId == None
    {
      mode := TextMode;
      input := "";
      linkInput := "";
      loading := false;
      error := "";
      cards := [];
      modalCard := None;
      loadingCardId := None;
    }

    /** The two mode buttons: switching clears the error. */
    method SelectMode(m: InputMode)
      modifies this
      ensures mode == m && error == ""
      ensures cards == old(cards) && input == old(input) && linkInput == old(linkInput) && modalCard == old(modalCard)
    {
      mode := m;
      error := "";
    }

    /** A new card goes to the head of the list and opens. */
    method AddCard(card: CravingCard)
      modifies this
      ensures cards == [card] + old(cards) && cards[1..] == old(cards) && modalCard == Some(card)
      ensures mode == old(mode) && input == old(input) && linkInput == old(linkInput) && error == old(error)
      ensures loading == old(loading) && loadingCardId == old(loadingCardId)
    {
      cards := [card] + cards;
      modalCard := Some(card);
    }

    /** The end of `handleAnalyze`: a refusal shows its message, a found dish becomes a new
        opened card at the head of the list; loading stops either way. */
    method Settle(id: string, a: Analysis)
      modifies this
      ensures a.Rejected? ==> error == a.message && cards == old(cards) && modalCard == old(modalCard)
      ensures a.Found? ==> error == old(error) && cards == [CardFor(id, a)] + old(cards) && modalCard == Some(cards[0])
      ensures !loading
      ensures mode == old(mode) && input == old(input) && linkInput == old(linkInput) && loadingCardId == old(loadingCardId)
    {
      if a.Rejected? {
        error := a.message;
      } else {
        AddCard(CardFor(id, a));
      }
      loading := false;
    }

    /** `handleAnalyze` once the trimmed input is known: a blank input only shows `blankError`
        and no service is called; otherwise the analysis settles the page. */
    method Run(id: string, blank: bool, blankError: string, a: Analysis)
      modifies this
      ensures blank ==> error == blankError && cards == old(cards) && modalCard == old(modalCard) && loading == old(loading)
      ensures !blank ==> !loading
      ensures !blank && a.Rejected? ==> error == a.message && cards == old(cards) && modalCard == old(modalCard)
      ensures !blank && a.Found? ==> error == "" && cards == [CardFor(id, a)] + old(cards) && modalCard == Some(cards[0])
      ensures mode == old(mode) && input == old(input) && linkInput == old(linkInput) && loadingCardId == old(loadingCardId)
    {
      if blank {
        error := blankError;
        return;
      }
      loading := true;
      error := "";
      Settle(id, a);
    }

    /** `handleAnalyze` in text mode: a blank input is refused before any call; otherwise the
        outcome of `TextAnalysis` decides between an error and a new card. */
    method AnalyzeText(id: string, identify: string -> Outcome<Option<string>>, recipeOf: string -> Outcome<Option<RecipeDetails>>)
      requires mode == TextMode
      modifies this
      ensures Trim(old(input)) == "" ==> error == EmptyCraving && cards == old(cards) && modalCard == old(modalCard) && loading == old(loading)
      ensures Trim(old(input)) != "" ==> !loading
      ensures Trim(old(input)) != "" && TextAnalysis(Trim(old(input)), identify, recipeOf).Rejected? ==>
        error == TextAnalysis(Trim(old(input)), identify, recipeOf).message && cards == old(cards) && modalCard == old(modalCard)
      ensures Trim(old(input)) != "" && TextAnalysis(Trim(old(input)), identify, recipeOf).Found? ==>
        && error == ""
        && cards == [CardFor(id, TextAnalysis(Trim(old(input)), identify, recipeOf))] + old(cards)
        && modalCard == Some(cards[0])
      ensures mode == old(mode) && input == old(input) && linkInput == old(linkInput) && loadingCardId == old(loadingCardId)
    {
      var raw := Trim(input);
      Run(id, raw == "", EmptyCraving, TextAnalysis(raw, identify, recipeOf));
    }

    /** `handleAnalyze` in link mode: a blank link is refused before any call; otherwise the
        outcome of `LinkAnalysis` decides between an error and a new card. */
    method AnalyzeLink(id: string, identify: string -> Outcome<Option<string>>, recipeOf: string -> Outcome<Option<RecipeDetails>>)
      requires mode == LinkMode
      modifies this
      ensures Trim(old(linkInput)) == "" ==> error == EmptyLink && cards == old(cards) && modalCard == old(modalCard) && loading == old(loading)
      ensures Trim(old(linkInput)) != "" ==> !loading
      ensures Trim(old(linkInput)) != "" && LinkAnalysis(Trim(old(linkInput)), identify, recipeOf).Rejected? ==>
        error == LinkAnalysis(Trim(old(linkInput)), identify, recipeOf).message && cards == old(cards) && modalCard == old(modalCard)
      ensures Trim(old(linkInput)) != "" && LinkAnalysis(Trim(old(linkInput)), identify, recipeOf).Found? ==>
        && error == ""
        && cards == [CardFor(id, LinkAnalysis(Trim(old(linkInput)), identify, recipeOf))] + old(cards)
        && modalCard == Some(cards[0])
      ensures mode == old(mode) && input == old(input) && linkInput == old(linkInput) && loadingCardId == old(loadingCardId)
    {
      var url := Trim(linkInput);
      Run(id, url == "", EmptyLink, LinkAnalysis(url, identify, recipeOf));
    }

    /** `openCard(card)`: a card with a recipe just opens; otherwise the recipe is fetched and,
        if there is one, attached to every card with that id and shown. The marker of the card
        being fetched is cleared whatever happens; a thrown error escapes. */
    method OpenCard(card: CravingCard, fetched: Outcome<Option<RecipeDetails>>) returns (escaped: Option<string>)
      modifies this
      ensures card.recipe.Some? ==> modalCard == Some(card) && cards == old(cards) && loadingCardId == old(loadingCardId) && escaped == None
      ensures card.recipe.None? ==> loadingCardId == None
      ensures card.recipe.None? && fetched.Thrown? ==> escaped == Some(fetched.message) && cards == old(cards) && modalCard == old(modalCard)
      ensures card.recipe.None? && fetched == Ok(None) ==> escaped == None && cards == old(cards) && modalCard == old(modalCard)
      ensures card.recipe.None? && fetched.Ok? && fetched.value.Some? ==>
        && escaped == None
        && cards == WithRecipe(old(cards), card.id, fetched.value.value)
        && modalCard == Some(card.(recipe := fetched.value))
      ensures mode == old(mode) && input == old(input) && linkInput == old(linkInput) && error == old(error) && loading == old(loading)
    {
      escaped := None;
      if card.recipe.Some? {
        modalCard := Some(card);
        return;
      }
      loadingCardId := Some(card.id);
      if fetched.Thrown? {
        escaped := Some(fetched.message);
      } else if fetched.value.Some? {
        cards := WithRecipe(cards, card.id, fetched.value.value);
        modalCard := Some(card.(recipe := fetched.value));
      }
      loadingCardId := None;
    }
  }
}

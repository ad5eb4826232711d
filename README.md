# KitchenFlow core, modelled in Dafny

KitchenFlow is a kitchen-inventory app. Photos of a fridge, pantry or invoice are sent to a Gemini model. The app cleans the model's JSON reply and validates it, then uses it to fill an inventory, a shopping list and a list of cravings. This project models the logic of that app and proves what it promises:

- **Image preprocessing** (`ImageProcessing`). Scale-to-fit without upscaling; the brightness and contrast pass over RGBA bytes; JPEG re-encoding at falling quality until a size target is met; the base64 payload taken from the data URL.
- **String helpers** (`Formatters`). Number and date normalisation, trimmed de-duplication, and the similarity score with its ranked top matches.
- **Inventory matching** (`ScannerService`). Freshness buckets, the match percentage of a dish against the inventory, and the missing ingredients.
- **Prompts and reply validators**:
  - `KitchenFlowPrompts` and `PromptTemplates` cover the prompt builders and the validators of both prompt files;
  - `GeminiApp` and `GeminiWeb` cover the two Gemini services;
  - `ModelOutput` holds the cleaning they share: delete code fences, trim, take the first-`{`-to-last-`}` span;
  - `Js` holds the JavaScript semantics they rely on: truthiness, `||` and `??` defaults, `Number(...)`, property reads that throw on `null`, and `map`/`filter` with throwing callbacks.
- **Pages**, each a class whose fields are the page's state, with one method per handler:
  - shopping lists: `ShoppingList` (backend that can fail) and `WebShoppingList` (local storage);
  - inventories: `Inventory` with its swipeable row, and `WebInventory`;
  - scanning: `Scan`, `ScanResults`, and the camera module's `Scanner` panel;
  - `Cravings`.
- **Recipe extraction** (`RecipeExtract`). The Python example's cuisine, difficulty, cooking-time and ingredient-table extraction, and its default file name. Each regular expression is written out as the scan it performs on the inputs the program feeds it. For the amount pattern the backtracking is modelled in full. In the step, time and table patterns every backtracking step would hand the next element a character it cannot match, so one forward scan finds the match Python finds.

`Wrappers`, `Text`, `Seqs` and `Kitchen` hold shared definitions: Option/Outcome, trimming and case folding, sequence helpers, and the entities.

Conventions of the model:

- Everything outside the logic is a parameter of the operation that uses it:
  - `JSON.parse` (`string -> Option<Json>`; `None` is a throw);
  - the Gemini SDK and HTTP calls, and the backend and storage calls (their outcome is an `Outcome` or `Backend` value);
  - the file reader, the JPEG encoder, `JSON.stringify`, ids and timestamps.
- A page handler that awaits a call takes that call's outcome as an argument.
- A state change is applied only where the source applies it: after the save succeeds, never on failure.

## Model

| member | source | states |
|---|---|---|
| ImageProcessing.Resolve | smart-kitchen-camera-module/utils/imageProcessing.ts:27-33 | every option left out takes its default, every option given is kept |
| ImageProcessing.ResolveDefaults | smart-kitchen-camera-module/utils/imageProcessing.ts:27-33 | with no options the settings are width 1920, height 1080, quality 0.85, enhancement on, target 500 KB |
| ImageProcessing.Ratio | smart-kitchen-camera-module/utils/imageProcessing.ts:48 | the ratio is the least of 1, maxWidth/width and maxHeight/height: at most each of them and equal to one of them, a zero side's term never winning; it lies in (0, 1] |
| ImageProcessing.ScaledSizeKeepsSmall | smart-kitchen-camera-module/utils/imageProcessing.ts:47-50 | an image already within both bounds keeps its exact size (no upscaling) |
| ImageProcessing.ScaledNeverLarger | smart-kitchen-camera-module/utils/imageProcessing.ts:49-50 | a scaled side is never longer than the original side |
| ImageProcessing.ScaledFits | smart-kitchen-camera-module/utils/imageProcessing.ts:49-50 | a side scaled by a ratio at most bound/side rounds to at most the bound |
| ImageProcessing.ScaledSizeFits | smart-kitchen-camera-module/utils/imageProcessing.ts:47-50 | for integer bounds the output width and height are within maxWidth and maxHeight |
| ImageProcessing.Clamp | smart-kitchen-camera-module/utils/imageProcessing.ts:133-135 | the result is a byte: the rounded value inside 0..255, 0 below, 255 above |
| ImageProcessing.ClampMonotone | smart-kitchen-camera-module/utils/imageProcessing.ts:133-135 | clamping preserves order |
| ImageProcessing.AdjustMonotone | smart-kitchen-camera-module/utils/imageProcessing.ts:120-127 | the brightness-then-contrast remap of a channel preserves order for a positive multiplier |
| ImageProcessing.AdjustMidGrey | smart-kitchen-camera-module/utils/imageProcessing.ts:116-127 | with multiplier 1 the contrast remap fixes mid-grey 128 |
| ImageProcessing.Multiplier | smart-kitchen-camera-module/utils/imageProcessing.ts:105-113 | the brightness multiplier is one of 1.3, 0.9 and 1 |
| ImageProcessing.Enhanced | smart-kitchen-camera-module/utils/imageProcessing.ts:118-128 | same length; every alpha byte (index 3 mod 4) is unchanged and every colour byte is remapped |
| ImageProcessing.BrightnessMultiplier | smart-kitchen-camera-module/utils/imageProcessing.ts:105-113 | the luma loop over the buffer computes the multiplier of the buffer's mean brightness |
| ImageProcessing.PixelOffsets | smart-kitchen-camera-module/utils/imageProcessing.ts:118-128 | from a pixel start the loop writes offsets 0-2 and never the alpha offset 3 |
| ImageProcessing.AdjustPixels | smart-kitchen-camera-module/utils/imageProcessing.ts:118-128 | the in-place loop leaves the buffer equal to the enhanced old buffer |
| ImageProcessing.ApplyAutoEnhance | smart-kitchen-camera-module/utils/imageProcessing.ts:97-131 | the buffer becomes the old buffer enhanced with its own brightness multiplier |
| ImageProcessing.SizeKB | smart-kitchen-camera-module/utils/imageProcessing.ts:137-139 | the size is the nearest integer to length·3/4/1024 |
| ImageProcessing.SizeKBMonotone | smart-kitchen-camera-module/utils/imageProcessing.ts:137-139 | a longer data URL never has a smaller size estimate |
| ImageProcessing.Reencodings | smart-kitchen-camera-module/utils/imageProcessing.ts:63-72 | the loop re-encodes exactly while the size exceeds the target and the quality is above 0.3: every quality before the last one triggers a re-encode and the last one does not; the last quality is above 0.2 and no re-encode starts at or below 0.3 |
| ImageProcessing.ReencodingsFirst | smart-kitchen-camera-module/utils/imageProcessing.ts:63-68 | a first encoding within the target is kept; one above the target and above the floor is re-encoded |
| ImageProcessing.Compress | smart-kitchen-camera-module/utils/imageProcessing.ts:63-72 | the loop performs exactly the specified number of re-encodes, each lowering the quality by 0.1; the final text is the encoding at the final quality; on exit the size meets the target or the quality is at most 0.3 |
| ImageProcessing.DefaultQualitySteps | smart-kitchen-camera-module/utils/imageProcessing.ts:30-69 | from 0.85, whatever the encoder and target, the loop re-encodes at most 6 times and the quality ends at 0.25 or above |
| ImageProcessing.SecondField | smart-kitchen-camera-module/utils/imageProcessing.ts:78 | `split(',')[1]` is absent exactly when there is no comma and never contains a comma |
| ImageProcessing.SecondFieldOfDataUrl | smart-kitchen-camera-module/utils/imageProcessing.ts:78 | the payload of a base64 data URL is what follows its comma |
| ImageProcessing.Preprocess | smart-kitchen-camera-module/utils/imageProcessing.ts:23-92 | no canvas context rejects with "Failed to get canvas context"; an image that fails to load rejects with "Failed to load image"; the canvas is untouched unless the promise resolves; with enhancement on and a scaled side of 0 the promise never settles; otherwise the output size is the scaled size, the pixels are enhanced exactly when enhancement is on, and the payload and size are those of the encoding at the quality where the loop stops |
| Formatters.KeepNumeric | smart-kitchen-camera-module/utils/formatters.ts:9 | the text keeps only digits, '.' and '-' |
| Formatters.NormalizeNumber | smart-kitchen-camera-module/utils/formatters.ts:8-11 | a finite number is returned as is, a non-finite number gives the fallback, a missing or null value gives 0 |
| Formatters.NormalizeNumberText | smart-kitchen-camera-module/utils/formatters.ts:9-10 | a string holding one digit run amid non-numeric characters normalises to that number |
| Formatters.NormalizeNumberNoDigits | smart-kitchen-camera-module/utils/formatters.ts:9-10 | a string without numeric characters normalises to 0 (Number of the empty string) |
| Formatters.DayFirst | smart-kitchen-camera-module/utils/formatters.ts:20-23 | year-first dates are rewritten as day/month/year with the same fields |
| Formatters.NormalizeDate | smart-kitchen-camera-module/utils/formatters.ts:16-25 | blank input gives ""; DD/MM/YYYY is kept; YYYY-MM-DD and YYYY/MM/DD are reordered; anything else is returned trimmed |
| Formatters.DayFirstTrimmed | smart-kitchen-camera-module/utils/formatters.ts:19 | a DD/MM/YYYY date has no surrounding blanks |
| Formatters.NormalizeDateIdempotent | smart-kitchen-camera-module/utils/formatters.ts:16-25 | normalising a normalised date changes nothing |
| Formatters.NormalizeDateReorders | smart-kitchen-camera-module/utils/formatters.ts:20-23 | YYYY-MM-DD and YYYY/MM/DD become DD/MM/YYYY with the same digits |
| Formatters.Uniq | smart-kitchen-camera-module/utils/formatters.ts:30-32 | the result is no longer than the input and has no repeated entry |
| Formatters.UniqMembers | smart-kitchen-camera-module/utils/formatters.ts:30-32 | a string is in the result exactly when it is non-empty and the trim of some input |
| Formatters.UniqTrimmed | smart-kitchen-camera-module/utils/formatters.ts:30-32 | every entry is non-empty and already trimmed |
| Formatters.UniqOrder | smart-kitchen-camera-module/utils/formatters.ts:30-32 | entries keep the order of their first occurrence among the trimmed inputs |
| Formatters.UniqKeepsPairwise | smart-kitchen-camera-module/utils/formatters.ts:30-32 | any relation holding between earlier and later trimmed inputs still holds in the result |
| Formatters.SimpleScore | smart-kitchen-camera-module/utils/formatters.ts:38-49 | the loop computes the score specification |
| Formatters.OverlapScore | smart-kitchen-camera-module/utils/formatters.ts:44-48 | the loop over distinct characters adds 2 per character shared with the other string |
| Formatters.SharedAll | smart-kitchen-camera-module/utils/formatters.ts:45-47 | the distinct characters of A that occur in B are exactly the shared set |
| Formatters.ScoreFolds | smart-kitchen-camera-module/utils/formatters.ts:39-40 | the score ignores surrounding blanks and letter case |
| Formatters.ScoreSelf | smart-kitchen-camera-module/utils/formatters.ts:41-42 | a string scores 1000 against itself unless blank, then 0 |
| Formatters.ScoreSymmetric | smart-kitchen-camera-module/utils/formatters.ts:38-49 | the score is symmetric |
| Formatters.InsertByScore | smart-kitchen-camera-module/utils/formatters.ts:58 | insertion keeps the multiset and keeps a descending order |
| Formatters.SortByScore | smart-kitchen-camera-module/utils/formatters.ts:58 | the sort is a permutation in descending score order |
| Formatters.InsertKeepsTies | smart-kitchen-camera-module/utils/formatters.ts:58 | inserting into a ranked list places the candidate after every candidate with its score |
| Formatters.SortByScoreStable | smart-kitchen-camera-module/utils/formatters.ts:58 | the sort is stable: for every score, the candidates with that score appear in their input order, so `slice` keeps the earliest of equally scored options |
| Formatters.PositiveScoresSound | smart-kitchen-camera-module/utils/formatters.ts:55-57 | a candidate is kept exactly when it is an option paired with its own score and that score is positive |
| Formatters.TopKeepsBest | smart-kitchen-camera-module/utils/formatters.ts:55-59 | the first limit candidates number the lesser of limit and the positive options; a positive option left out of them scores no more than any kept one |
| Formatters.TopRanked | smart-kitchen-camera-module/utils/formatters.ts:55-59 | the first limit candidates are in descending order, each an option with its positive score, and every positive option either is among them or scores no more than all of them |
| Formatters.RankedNamesSound | smart-kitchen-camera-module/utils/formatters.ts:55-60 | at most limit names, each an option with a positive score, in descending score order; when no more than limit options score above 0, every one of them is named |
| Formatters.RankedNamesComplete | smart-kitchen-camera-module/utils/formatters.ts:55-60 | with no more than limit positive options, each positive option is among the ranked names |
| Formatters.UniqKeepsRanking | smart-kitchen-camera-module/utils/formatters.ts:61 | de-duplicating a score-ordered list keeps it score-ordered |
| Formatters.TopMatchesOrder | smart-kitchen-camera-module/utils/formatters.ts:54-62 | the matches are in descending score order, and a positive option whose trim is not listed scores no more than any match |
| Formatters.TopMatchesRanked | smart-kitchen-camera-module/utils/formatters.ts:54-62 | the matches are in descending score order |
| Formatters.TopMatchesDropped | smart-kitchen-camera-module/utils/formatters.ts:54-62 | a positive option whose trimmed name is missing from the matches scores no more than each match |
| Formatters.TopMatchesComplete | smart-kitchen-camera-module/utils/formatters.ts:54-62 | with no more than limit positive options, the trim of each positive option is among the matches |
| Formatters.TopMatchesSound | smart-kitchen-camera-module/utils/formatters.ts:54-62 | at most limit distinct, non-empty, trimmed matches, each the trim of an option with a positive score, best first; with no more than limit positive options, every positive option's trim is listed |
| ScannerService.SortByFreshness | scanner-docs/kitchenflow-scanner-service.ts:220-230 | each bucket holds only items of its freshness |
| ScannerService.SortByFreshnessMembers | scanner-docs/kitchenflow-scanner-service.ts:225-229 | an item is in a bucket exactly when it is an input item with that freshness |
| ScannerService.SortByFreshnessCovers | scanner-docs/kitchenflow-scanner-service.ts:220-230 | when every freshness is one of the three, the buckets together are as long as the input |
| ScannerService.MatchScore | scanner-docs/kitchenflow-scanner-service.ts:235-250 | 0 for no requirements; otherwise the matched share as a percentage rounded to the nearest integer (halves up); 0 for no matches, 100 when all match, always within 0..100 |
| ScannerService.Percent | scanner-docs/kitchenflow-scanner-service.ts:249 | `Math.round(m / n * 100)` is the nearest integer to 100·m/n, halves up, and lies in 0..100 |
| ScannerService.MissingMembers | scanner-docs/kitchenflow-scanner-service.ts:241-265 | a requirement is missing exactly when no inventory name contains it or is contained in it, case-insensitively, and matched exactly otherwise |
| ScannerService.MatchedPlusMissing | scanner-docs/kitchenflow-scanner-service.ts:243-265 | matched and missing requirements partition the requirements |
| ScannerService.MatchScoreMissing | scanner-docs/kitchenflow-scanner-service.ts:239-265 | nothing missing gives 100; everything missing gives 0 |
| ScannerService.EmptyNameMatchesAll | scanner-docs/kitchenflow-scanner-service.ts:244-263 | an inventory item with an empty name matches every requirement, so nothing is missing |
| KitchenFlowPrompts.MultiPhotoNote | scanner-docs/kitchenflow-prompts.ts:11-13 | the note is empty exactly when imageCount ≤ 1, and otherwise carries the count |
| KitchenFlowPrompts.KitchenFlowPromptNote | scanner-docs/kitchenflow-prompts.ts:10-62 | the prompt holds the count-once warning and the count when imageCount > 1, and is the fixed text otherwise |
| KitchenFlowPrompts.SnapshotItem | scanner-docs/kitchenflow-prompts.ts:88-95 | an item converts unless its name, or its truthy unit, is not a string; name and unit are trimmed, unit defaults to "pcs", freshness to "fresh", confidence to 0.7 when 0 or NaN |
| KitchenFlowPrompts.SnapshotOfSucceeds | scanner-docs/kitchenflow-prompts.ts:81-100 | with an item array, validation succeeds exactly when no item is null and every kept item converts |
| KitchenFlowPrompts.SnapshotOfUnfolds | scanner-docs/kitchenflow-prompts.ts:86-100 | without null items the filter cannot throw, and the result is the mapped kept items with scan quality defaulting to "medium" |
| KitchenFlowPrompts.KitchenFlowResultNull | scanner-docs/kitchenflow-prompts.ts:67-105 | null exactly when the reply does not parse, has no item array, holds a null item, or a kept item fails to convert |
| KitchenFlowPrompts.SnapshotOfMapsKept | scanner-docs/kitchenflow-prompts.ts:86-100 | a successful result is the kept items converted one by one, and the scan quality |
| KitchenFlowPrompts.KitchenFlowResultItems | scanner-docs/kitchenflow-prompts.ts:86-99 | the result has one item per kept reply item, in order, each its conversion |
| KitchenFlowPrompts.KitchenFlowQuantitiesPositive | scanner-docs/kitchenflow-prompts.ts:87 | every item of a result has a finite positive quantity |
| KitchenFlowPrompts.CravingAnalysisPromptNamesDish | scanner-docs/kitchenflow-prompts.ts:109-133 | the dish name appears in the prompt at both of its places |
| KitchenFlowPrompts.DishIngredientOf | scanner-docs/kitchenflow-prompts.ts:160-165 | an ingredient throws only for null; it is essential unless the reply says exactly false; name and unit pass through and quantity is converted |
| KitchenFlowPrompts.CravingAnalysisNull | scanner-docs/kitchenflow-prompts.ts:148-172 | the result is present exactly when the reply parses to a non-null value whose ingredients are absent or an array without null |
| KitchenFlowPrompts.CravingAnalysisDefaults | scanner-docs/kitchenflow-prompts.ts:156-166 | cuisine, difficulty and time default to "Unknown", "medium" and "30 minutes"; one ingredient per element, essential unless exactly false; no ingredients gives [] |
| KitchenFlowPrompts.Section | scanner-docs/kitchenflow-prompts.ts:186-205 | an empty list gives its placeholder, any other list its lines joined by line breaks |
| KitchenFlowPrompts.StaplesSectionRule | scanner-docs/kitchenflow-prompts.ts:194-197 | the staples section lists exactly the staples scoring under 30, and is "(all good)" when there are none |
| KitchenFlowPrompts.ShoppingListDefaults | scanner-docs/kitchenflow-prompts.ts:274-292 | present exactly for a non-null reply; missing lists default to [] and the cost passes through |
| KitchenFlowPrompts.ReceiptLineOf | scanner-docs/kitchenflow-prompts.ts:349-355 | a line throws only for null; name and unit pass through; quantity and prices are converted |
| KitchenFlowPrompts.ReceiptPriceNull | scanner-docs/kitchenflow-prompts.ts:338-363 | the result is present exactly when the reply parses to a non-null value whose items are absent or an array without null |
| KitchenFlowPrompts.ReceiptPriceDefaults | scanner-docs/kitchenflow-prompts.ts:346-358 | the shop defaults to "Unknown", a NaN or zero total to 0, the scan quality to "medium"; one line per reply item |
| KitchenFlowPrompts.ARInventoryText | scanner-docs/kitchenflow-prompts.ts:371-382 | an empty joined inventory becomes "(empty fridge)", any other is kept |
| KitchenFlowPrompts.ARInventoryPlaceholder | scanner-docs/kitchenflow-prompts.ts:371-382 | the placeholder appears exactly for an empty inventory or a single item with an empty name |
| KitchenFlowPrompts.ARRecipePromptParts | scanner-docs/kitchenflow-prompts.ts:367-403 | the scanned item and the inventory text appear at their places in the prompt |
| KitchenFlowPrompts.VoiceParsePromptQuotes | scanner-docs/kitchenflow-prompts.ts:431-461 | the transcript appears quoted in the prompt |
| KitchenFlowPrompts.ParsedReply | scanner-docs/kitchenflow-prompts.ts:416-484 | the AR and voice validators return the parse of the cleaned reply, null when it fails or is null |
| Js.Or | scanner-docs/kitchenflow-prompts.ts:99 | `v \|\| d` is v when v is truthy and d otherwise |
| Js.Coalesce | src/services/gemini.ts:138 | `v ?? d` is d for a missing or null v and v otherwise |
| Js.Get | scanner-docs/kitchenflow-prompts.ts:81 | reading a property throws exactly on null; a found property is the object's field |
| Js.ElementsOr | scanner-docs/kitchenflow-prompts.ts:160 | `(v \|\| [])` gives [] for a falsy v, the elements of an array, and a throw from `.map` for any other truthy value |
| Js.TrimValue | scanner-docs/kitchenflow-prompts.ts:89 | `.trim()` succeeds exactly on a string and gives its trim |
| Js.StringToNumber | smart-kitchen-camera-module/utils/formatters.ts:9 | `Number` of a string is never infinite here and is 0 for a blank string |
| Js.NumberOr | scanner-docs/kitchenflow-prompts.ts:93 | `Number(v) \|\| d` keeps a finite non-zero number and gives d for NaN or 0 |
| Js.IntegerTextRoundTrip | smart-kitchen-camera-module/utils/formatters.ts:9 | `Number(String(k))` is k for every integer k |
| Js.Round | scanner-docs/kitchenflow-scanner-service.ts:249 | `Math.round` lies within half a unit of its argument |
| Js.RoundMonotone | scanner-docs/kitchenflow-scanner-service.ts:249 | rounding preserves order |
| Js.RoundInteger | scanner-docs/kitchenflow-scanner-service.ts:249 | rounding an integer gives it back |
| Js.MapOk | scanner-docs/kitchenflow-prompts.ts:88-95 | `.map` with a callback that may throw: it succeeds exactly when every call does, and then maps element by element |
| Js.MapOkNull | scanner-docs/kitchenflow-prompts.ts:160-165 | a callback that throws exactly on null makes the map succeed exactly when no element is null |
| Js.FilterOk | scanner-docs/kitchenflow-prompts.ts:87 | `.filter` with a test that may throw: it succeeds exactly when every test does, and then keeps the accepted elements |
| ModelOutput.RemoveAll | scanner-docs/kitchenflow-prompts.ts:73 | deleting every occurrence of a pattern never lengthens the text |
| ModelOutput.RemoveAllAbsent | scanner-docs/kitchenflow-prompts.ts:73 | a text without the pattern is unchanged |
| ModelOutput.NoFenceLeft | scanner-docs/kitchenflow-prompts.ts:73 | after the global replace no code fence remains |
| ModelOutput.ObjectBounds | scanner-docs/kitchenflow-prompts.ts:76 | a match exists exactly when some '{' precedes some '}', and then runs from the first '{' to the last '}' |
| ModelOutput.ObjectSpan | scanner-docs/kitchenflow-prompts.ts:76-77 | the match exists exactly when the bounds do, and begins with '{' and ends with '}' |
| ModelOutput.ObjectSpanIdempotent | scanner-docs/kitchenflow-prompts.ts:76-77 | extracting the object span of an extracted span changes nothing |
| ModelOutput.UnfencedHasNoFence | scanner-docs/kitchenflow-prompts.ts:73 | the cleaned, trimmed reply holds no code fence |
| ModelOutput.CleanHasNoFence | scanner-docs/kitchenflow-prompts.ts:73-77 | the text handed to `JSON.parse` holds no code fence |
| ModelOutput.CleanBraces | scanner-docs/kitchenflow-prompts.ts:73-77 | with a '{' before a '}' the parsed text is braced at both ends; otherwise it is the whole unfenced text |
| ModelOutput.NamedPositive | scanner-docs/kitchenflow-prompts.ts:87 | the item test throws exactly on null and accepts exactly items with a truthy name and a positive quantity |
| ModelOutput.KeepTestThrows | scanner-docs/kitchenflow-prompts.ts:86-87 | the filter over the reply items succeeds exactly when none is null |
| ModelOutput.KeptQuantityPositive | scanner-docs/kitchenflow-prompts.ts:87 | every kept item has a positive quantity |
| PromptTemplates.MultiImageWarning | smart-kitchen-camera-module/services/promptTemplates.ts:57-59 | the warning is empty exactly when imageCount ≤ 1, and otherwise carries the count |
| PromptTemplates.ScanPromptWarning | smart-kitchen-camera-module/services/promptTemplates.ts:50-81 | the prompt holds the warning and the count when imageCount > 1, and is the plain prompt otherwise |
| PromptTemplates.ScanPromptFallback | smart-kitchen-camera-module/services/promptTemplates.ts:53-55 | with no known items the prompt asks to identify all visible food items |
| PromptTemplates.ScanPromptListsKnownItems | smart-kitchen-camera-module/services/promptTemplates.ts:53-54 | each of the first 20 known items appears as name(unit) |
| PromptTemplates.ScanPromptCap | smart-kitchen-camera-module/services/promptTemplates.ts:54 | known items after the 20th do not change the prompt |
| PromptTemplates.DetailedScanPromptPlural | smart-kitchen-camera-module/services/promptTemplates.ts:97 | the line under "## Task" says "images" exactly when imageCount > 1 |
| PromptTemplates.ImageCountPhrasePlural | smart-kitchen-camera-module/services/promptTemplates.ts:97 | the count phrase is "N images of " for N > 1 and "N image of " otherwise |
| PromptTemplates.DetailedScanPromptKnownItems | smart-kitchen-camera-module/services/promptTemplates.ts:89-91 | every known item is listed, without a cap; none gives the fallback line |
| PromptTemplates.FridgeAuditPromptDictionary | smart-kitchen-camera-module/services/promptTemplates.ts:124-172 | an empty dictionary gives the "(no known items)" placeholder; every entry is listed |
| PromptTemplates.InvoiceScanPromptKnownItems | smart-kitchen-camera-module/services/promptTemplates.ts:276-279 | no known items gives the prompt without the line; the first 20 appear; later ones change nothing |
| PromptTemplates.NormalUnit | smart-kitchen-camera-module/services/promptTemplates.ts:202 | the unit defaults to "pcs" and is trimmed and lower-cased; it fails only for a truthy non-string |
| PromptTemplates.ScanResultItemOf | smart-kitchen-camera-module/services/promptTemplates.ts:199-205 | an item converts exactly when its name is a string and its unit converts; the name is trimmed; confidence 0.7 replaces 0 or NaN |
| PromptTemplates.ScanResultOfUnfolds | smart-kitchen-camera-module/services/promptTemplates.ts:195-211 | without null items the result is the converted kept items, with scan quality "medium" and suggestions [] by default |
| PromptTemplates.ScanResultNull | smart-kitchen-camera-module/services/promptTemplates.ts:188-216 | null exactly when the reply does not parse, has no item array, holds null, or a kept item fails to convert |
| PromptTemplates.ScanResultItems | smart-kitchen-camera-module/services/promptTemplates.ts:197-211 | one result item per kept reply item, in order; scan quality and suggestions default |
| PromptTemplates.ScanResultItemsNormal | smart-kitchen-camera-module/services/promptTemplates.ts:198-202 | every result item has a positive quantity and a trimmed lower-case unit |
| PromptTemplates.AuditFoundOf | smart-kitchen-camera-module/services/promptTemplates.ts:226-235 | a found entry throws only for null; confidence defaults to 0.7; the other fields pass through |
| PromptTemplates.AuditNewOf | smart-kitchen-camera-module/services/promptTemplates.ts:237-244 | a new entry throws only for null; confidence defaults to 0.6 |
| PromptTemplates.FridgeAuditNull | smart-kitchen-camera-module/services/promptTemplates.ts:218-255 | null exactly when the reply does not parse or is null, or found or new_items is truthy but not an array, or holds null |
| PromptTemplates.FridgeAuditDefaults | smart-kitchen-camera-module/services/promptTemplates.ts:226-251 | one entry per reply element with no quantity filter; notFound defaults to [] and scan quality to "medium" |
| PromptTemplates.PriceOr0 | smart-kitchen-camera-module/services/promptTemplates.ts:327-328 | a non-numeric price becomes 0, a finite one is kept |
| PromptTemplates.InvoiceLineOf | smart-kitchen-camera-module/services/promptTemplates.ts:323-331 | a line throws only for null; prices default to 0 and confidence to 0.7 |
| PromptTemplates.InvoiceScanNull | smart-kitchen-camera-module/services/promptTemplates.ts:315-344 | the result is present exactly when the reply parses to a non-null value whose items are absent or an array without null |
| PromptTemplates.InvoiceScanDefaults | smart-kitchen-camera-module/services/promptTemplates.ts:323-340 | header fields pass through, scan quality defaults to "medium", one line per reply item |
| GeminiApp.FoodNameOf | src/services/gemini.ts:36 | a name is returned exactly when foodName is a non-empty string, and it is that string trimmed |
| GeminiApp.IdentifiedCraving | src/services/gemini.ts:33-63 | the identifiers give a name exactly when the reply text is non-empty, parses, and has a usable foodName |
| GeminiApp.BlankFoodName | src/services/gemini.ts:36 | a whitespace-only foodName yields the empty name, not null |
| GeminiApp.OptionalText | src/services/gemini.ts:94-95 | `String(v ?? '').trim()` is "" for a missing or null value and the trimmed text otherwise |
| GeminiApp.RecipeIngredientOf | src/services/gemini.ts:96-99 | an ingredient's name is its trimmed text and its icon is absent exactly when the icon is falsy |
| GeminiApp.RecipeOf | src/services/gemini.ts:91-101 | a recipe exactly when dishName is truthy and ingredients and steps are arrays; fields trimmed, one ingredient and one step per element |
| GeminiApp.RecipeFromReply | src/services/gemini.ts:88-101 | a recipe only from a non-empty reply text that parses, and then the recipe of the parsed value |
| GeminiApp.NamedPositiveOrZero | src/services/gemini.ts:138 | `(quantity ?? 0) > 0` keeps exactly the items the other validators keep |
| GeminiApp.AppFreshItem | src/services/gemini.ts:139-146 | an item converts unless it is null or its truthy unit is not a string; the name is stringified and trimmed, quantity defaults to 1, unit "pcs", freshness "fresh", confidence 0.7 |
| GeminiApp.AppSnapshotOfUnfolds | src/services/gemini.ts:136-147 | without null items the result is the converted kept items with scan quality defaulting to "medium" |
| GeminiApp.AppParseFridgeNull | src/services/gemini.ts:130-151 | null exactly when the reply does not parse, has no item array, holds null, or a kept item fails to convert |
| GeminiApp.AppParseFridgeItems | src/services/gemini.ts:137-147 | one item per kept reply item, in order, each its conversion |
| GeminiApp.AppScanParts | src/services/gemini.ts:154-159 | one inline-data part per image in input order, then the prompt text |
| GeminiApp.ScanFridge | src/services/gemini.ts:153-170 | the scan succeeds exactly when the call returns non-empty text that validates, and then returns the validated result; a failed call rethrows its message, empty text throws "Gemini 未返回扫描结果", a reply that does not validate throws "解析扫描结果失败" |
| GeminiWeb.RequestParts | kitchenflow-web/src/services/gemini.ts:14-19 | the parts are the prompt text followed by one inline-data part per image, in input order |
| GeminiWeb.CallGemini | kitchenflow-web/src/services/gemini.ts:11-30 | the call returns text exactly when the service answers with non-empty text, and then that text; a failed request passes its error through, and empty text throws "Gemini 未返回文本" |
| GeminiWeb.WebFreshItem | kitchenflow-web/src/services/gemini.ts:61-68 | an item converts unless it is null or its truthy unit is not a string; name trimmed, unit "pcs", freshness "fresh", confidence 0.7 by default |
| GeminiWeb.KeptItemsAgree | kitchenflow-web/src/services/gemini.ts:60-68 | on every kept item this conversion equals the app's, whose quantity default never applies there |
| GeminiWeb.ParseFridgeResultsAgree | kitchenflow-web/src/services/gemini.ts:52-73 | this `parseFridgeResult` gives the same result as the app's on every reply |
| GeminiWeb.WebParseFridgeNull | kitchenflow-web/src/services/gemini.ts:52-73 | null exactly when the reply does not parse, has no item array, holds null, or a kept item fails to convert |
| GeminiWeb.WebParseFridgeItems | kitchenflow-web/src/services/gemini.ts:59-69 | one item per kept reply item, in order, each with a positive quantity; scan quality defaults to "medium" |
| GeminiWeb.WebScanFridge | kitchenflow-web/src/services/gemini.ts:75-80 | the scan succeeds exactly when the call returns text that validates, and returns the validated result; a failed call rethrows its message, and a reply that does not validate throws "解析扫描结果失败" |
| GeminiWeb.CravingPromptNamesDish | kitchenflow-web/src/services/gemini.ts:82-95 | the dish name appears at both of its places in the prompt |
| GeminiWeb.CravingResultOf | kitchenflow-web/src/services/gemini.ts:103-111 | a result exactly when dishName is truthy and requiredIngredients is an array; every field passes through |
| GeminiWeb.ParseCravingNull | kitchenflow-web/src/services/gemini.ts:97-115 | the result is present exactly when the cleaned reply parses to a non-null value with a truthy dishName and an ingredient array |
| GeminiWeb.AnalyzeCraving | kitchenflow-web/src/services/gemini.ts:117-122 | the prompt names the trimmed dish; the analysis succeeds exactly when the reply validates; a failed call rethrows its message and a reply that does not validate throws "解析菜谱结果失败" |
| GeminiWeb.AnalyzeCravingTrims | kitchenflow-web/src/services/gemini.ts:118 | the prompt is built from the trimmed dish name, which appears in it |
| ShoppingList.ColumnAt | src/pages/ShoppingList.tsx:15 | store column idx holds exactly the items at positions i with i mod 3 = idx, in order |
| ShoppingList.GroupByStore | src/pages/ShoppingList.tsx:12-17 | no group is empty |
| ShoppingList.GroupByStoreShape | src/pages/ShoppingList.tsx:13-16 | the groups are Tesco, Asda, Lidl in that order, dropping exactly the empty ones |
| ShoppingList.ColumnOf | src/pages/ShoppingList.tsx:15 | the item at index i lands in store i mod 3 at position i div 3 |
| ShoppingList.GroupByStorePartition | src/pages/ShoppingList.tsx:12-17 | the three store columns together hold as many items as the list |
| ShoppingList.MergedShape | src/pages/ShoppingList.tsx:39-43 | the stored list stays a prefix; each appended item is unchecked, named by an incoming name not already listed case-insensitively, with the k-th new id and the k-th clock reading, and every such name is appended |
| ShoppingList.MergedKeepsDuplicates | src/pages/ShoppingList.tsx:40-42 | an unlisted name given twice is appended twice |
| ShoppingList.ToggledAt | src/pages/ShoppingList.tsx:69 | only items with the id have their checked flag flipped; all else is unchanged |
| ShoppingList.ToggleTwice | src/pages/ShoppingList.tsx:69 | toggling twice restores the list |
| ShoppingList.RemovedMembers | src/pages/ShoppingList.tsx:80 | exactly the items without the id remain; an absent id changes nothing |
| ShoppingList.DoneClearedMembers | src/pages/ShoppingList.tsx:91 | exactly the unchecked items remain, and clearing twice equals clearing once |
| ShoppingList.ShoppingListPage.constructor | src/pages/ShoppingList.tsx:22-25 | the page starts with an empty list, empty input and error, and the merge not yet applied |
| ShoppingList.ShoppingListPage.Load | src/pages/ShoppingList.tsx:27-30 | a successful fetch shows the stored list; a failed one keeps the list and sets the error |
| ShoppingList.ShoppingListPage.ApplyAddItems | src/pages/ShoppingList.tsx:32-51 | runs only once per mount and only with incoming names; on success the shown and stored list is the merge of the stored list and the location state is cleared, on a failed fetch or save the list is unchanged, the error set and the state kept |
| ShoppingList.ShoppingListPage.AddItem | src/pages/ShoppingList.tsx:53-65 | a blank name does nothing; otherwise one unchecked item with the trimmed name is appended and the input cleared once saving succeeds, and nothing but the error changes if it fails |
| ShoppingList.ShoppingListPage.Commit | src/pages/ShoppingList.tsx:58-97 | the new list replaces the shown and stored list only after a successful save; a failed save keeps both and sets the error |
| ShoppingList.ShoppingListPage.Toggle | src/pages/ShoppingList.tsx:67-76 | after a successful save the list is the toggled list; otherwise unchanged with an error |
| ShoppingList.ShoppingListPage.Remove | src/pages/ShoppingList.tsx:78-87 | after a successful save the list lacks the id's items; otherwise unchanged with an error |
| ShoppingList.ShoppingListPage.ClearDone | src/pages/ShoppingList.tsx:89-98 | after a successful save only unchecked items remain; otherwise unchanged with an error |
| WebShoppingList.WebShoppingListPage.constructor | kitchenflow-web/src/pages/ShoppingList.tsx:13-19 | the page shows the stored list and the merge is not yet applied |
| WebShoppingList.WebShoppingListPage.ApplyAddItems | kitchenflow-web/src/pages/ShoppingList.tsx:21-35 | with incoming names and not yet applied, the list becomes the merge of the stored list, is saved and the location state is cleared; otherwise nothing changes |
| WebShoppingList.WebShoppingListPage.AddItem | kitchenflow-web/src/pages/ShoppingList.tsx:37-44 | a blank name does nothing; otherwise one unchecked item with the trimmed name is appended, saved, and the input cleared |
| WebShoppingList.WebShoppingListPage.Toggle | kitchenflow-web/src/pages/ShoppingList.tsx:46-50 | the list becomes the toggled list and is saved |
| WebShoppingList.WebShoppingListPage.Remove | kitchenflow-web/src/pages/ShoppingList.tsx:52-56 | the list loses the id's items and is saved |
| WebShoppingList.WebShoppingListPage.ClearDone | kitchenflow-web/src/pages/ShoppingList.tsx:58-62 | only unchecked items remain, saved |
| Inventory.FilteredMembers | src/pages/Inventory.tsx:130 | a location tab shows exactly the items stored there, in order |
| Inventory.LocationTabsPartition | src/pages/Inventory.tsx:130 | the fridge, freezer and pantry tabs together show every item once |
| Inventory.WithoutMembers | src/pages/Inventory.tsx:134 | exactly the items without the id remain; an absent id changes nothing |
| Inventory.RenamedRoundTrip | src/pages/Inventory.tsx:145 | renaming an id and renaming it back restores the list |
| Inventory.FreshnessLabel | src/pages/Inventory.tsx:67-68 | green exactly for "fresh", yellow exactly for "use-soon", red for every other value |
| Inventory.SwipeableRow.constructor | src/pages/Inventory.tsx:23-27 | a row starts closed, not dragging, not editing, with the item's name in the editor |
| Inventory.SwipeableRow.PointerDown | src/pages/Inventory.tsx:35-40 | while editing nothing changes; otherwise dragging starts at the pointer position |
| Inventory.SwipeableRow.PointerMove | src/pages/Inventory.tsx:42-46 | while dragging, a leftward move of less than 140 sets the offset; anything else keeps it |
| Inventory.SwipeableRow.PointerUp | src/pages/Inventory.tsx:48-53 | ending a drag snaps open to -90 past -70 and closed to 0 otherwise; without a drag nothing changes |
| Inventory.SwipeableRow.Rerender | src/pages/Inventory.tsx:19-27 | a re-render with the entry's current name changes only the name the row reads; the editor text, initialised once, stays |
| Inventory.SwipeableRow.StartEditing | src/pages/Inventory.tsx:105 | tapping the name starts editing |
| Inventory.SwipeableRow.EditText | src/pages/Inventory.tsx:97 | typing replaces the edited text |
| Inventory.SwipeableRow.SubmitName | src/pages/Inventory.tsx:60-65 | editing ends; a non-blank name is reported trimmed, a blank one restores the entry's current name |
| Inventory.InventoryPage.constructor | src/pages/Inventory.tsx:121-123 | the page starts empty on the "all" tab with no error |
| Inventory.InventoryPage.Load | src/pages/Inventory.tsx:125-128 | a successful fetch shows the stored list; a failed one sets the error |
| Inventory.InventoryPage.SelectTab | src/pages/Inventory.tsx:122-130 | choosing a tab changes only the tab |
| Inventory.InventoryPage.Commit | src/pages/Inventory.tsx:135-151 | the new list replaces the shown and stored list only after a successful save; a failed save keeps both and sets the error |
| Inventory.InventoryPage.Remove | src/pages/Inventory.tsx:132-141 | after a successful save the id's items are gone; otherwise unchanged with an error |
| Inventory.InventoryPage.UpdateName | src/pages/Inventory.tsx:143-152 | after a successful save the id's items are renamed; otherwise unchanged with an error |
| WebInventory.WebInventoryPage.constructor | kitchenflow-web/src/pages/Inventory.tsx:15-20 | the page shows the stored list on the "all" tab |
| WebInventory.WebInventoryPage.SelectTab | kitchenflow-web/src/pages/Inventory.tsx:16-22 | choosing a tab changes only the tab |
| WebInventory.WebInventoryPage.Remove | kitchenflow-web/src/pages/Inventory.tsx:24-28 | the id's items are removed and the list saved |
| ScanResults.GroupByFreshness | src/pages/ScanResults.tsx:7-17 | the loop puts each item in exactly one group, keeping order: "fresh", "use-soon", and every other value as priority |
| ScanResults.FreshnessGroupsPartition | src/pages/ScanResults.tsx:11-15 | the three groups together hold every item once |
| ScanResults.TagLabel | src/pages/ScanResults.tsx:26 | "Fresh" exactly for "fresh", "Use Soon" exactly for "use-soon", "Priority" otherwise |
| ScanResults.GroupsMatchTags | src/pages/ScanResults.tsx:11-26 | an item is in a group exactly when its tag names that group |
| ScanResults.StoredLocation | src/pages/ScanResults.tsx:104-111 | the first item's location picks pantry or freezer; anything else, or no items, is fridge |
| ScanResults.ScanIdsDistinct | src/pages/ScanResults.tsx:106 | ids for different indices differ, whatever clock readings they carry |
| ScanResults.SavedItems | src/pages/ScanResults.tsx:105-113 | one inventory item per scanned item |
| ScanResults.SavedItemsShape | src/pages/ScanResults.tsx:105-113 | each saved item keeps name, quantity, unit and freshness, takes the shared location, and the ids are distinct however the clock moves between items |
| ScanResults.ScanResultsPage.constructor | src/pages/ScanResults.tsx:79 | the page starts without an error |
| ScanResults.ScanResultsPage.SaveToInventory | src/pages/ScanResults.tsx:100-119 | on success the inventory gains the saved items after the old ones and the page navigates; a failed fetch or save changes nothing but the error |
| ScanResults.ShoppingNames | src/pages/ScanResults.tsx:122 | one name per scanned item |
| ScanResults.AddToShoppingCovers | src/pages/ScanResults.tsx:121-123 | every scanned name not yet on the shopping list is appended by the shopping page's merge |
| Scan.ParseDataUrlRoundTrip | src/pages/Scan.tsx:34-35 | a data URL built from a MIME type and a one-line payload is parsed back into them |
| Scan.ParseDataUrlSound | src/pages/Scan.tsx:34-35 | every parsed data URL is exactly the data URL of its parts |
| Scan.FileToBase64 | src/pages/Scan.tsx:29-41 | a read error is passed on, a text the pattern rejects gives "parse", and a match gives its MIME type and payload |
| Scan.WithLocation | src/pages/Scan.tsx:57-60 | every item is tagged with the chosen location and the scan quality defaults to "medium" |
| Scan.SavedWhereChosen | src/pages/Scan.tsx:57-60 | a tagged non-empty result is saved to the chosen location |
| Scan.ScanPage.constructor | src/pages/Scan.tsx:10-14 | no files, location fridge, not loading, no error |
| Scan.ScanPage.OnSelect | src/pages/Scan.tsx:16-27 | an empty selection does nothing; otherwise the first five files replace the selection and the error clears |
| Scan.ScanPage.SelectLocation | src/pages/Scan.tsx:12 | choosing a location changes only the location |
| Scan.ScanPage.HandleScan | src/pages/Scan.tsx:43-67 | no files gives the "select photos" error; a failed read or scan gives its message; an empty result gives the "nothing found" error; otherwise it navigates with the tagged result; loading ends false |
| Scanner.DropIndex | smart-kitchen-camera-module/components/Scanner.tsx:77 | a valid index removes exactly that file, keeping the others in order; any other index changes nothing |
| Scanner.ScanError | smart-kitchen-camera-module/components/Scanner.tsx:123 | the shown error is the thrown message, or "Scan failed" when the message is empty |
| Scanner.ScanOptionsResolve | smart-kitchen-camera-module/components/Scanner.tsx:89-92 | the scan's options resolve to width 1500, height 1080, quality 0.85, enhancement on and target 500 KB |
| Scanner.SingleImageModes | smart-kitchen-camera-module/components/Scanner.tsx:104-110 | in the receipt and sales modes the service sees only the first image; further images change nothing |
| Scanner.ScannerPanel.constructor | smart-kitchen-camera-module/components/Scanner.tsx:42-46 | the panel starts in the given mode with no files, no error, no output, not analysing |
| Scanner.ScannerPanel.AddFile | smart-kitchen-camera-module/components/Scanner.tsx:60-74 | no file does nothing; fridge mode appends up to five files and ignores more; other modes keep only the new file; an added file clears the error |
| Scanner.ScannerPanel.RemoveFile | smart-kitchen-camera-module/components/Scanner.tsx:76-78 | the files lose exactly the one at the index |
| Scanner.ScannerPanel.SelectMode | smart-kitchen-camera-module/components/Scanner.tsx:148 | switching tabs sets the mode and clears files, output and error |
| Scanner.ScannerPanel.RunScan | smart-kitchen-camera-module/components/Scanner.tsx:80-127 | no files does nothing; otherwise images are preprocessed at width 1500 and target 500 KB, fridge mode sends all, the other modes the first; a rejected preprocessing, a throw or a falsy result sets the error and clears the output; a result is reported and its JSON shown; analysing ends false, except when some photo's preprocessing never settles and none rejects: then the panel stays analysing with no error, no output and no result |
| Scanner.PromiseAll | smart-kitchen-camera-module/components/Scanner.tsx:88-97 | rejects exactly when some photo's preprocessing rejects, with the first such message; never settles exactly when none rejects and one never settles; otherwise resolves with every image in order |
| Scanner.ThinPhotoNeverSettles | smart-kitchen-camera-module/components/Scanner.tsx:88-92 | a 1 by 3000 photo under the panel's options is scaled to width 0, where the enhancement pass throws and the preprocessing never settles |
| Cravings.TextFoodName | src/pages/Cravings.tsx:47 | the food name is the identified name trimmed, or the input trimmed when nothing was identified |
| Cravings.WithRecipeAt | src/pages/Cravings.tsx:113-115 | only the cards with the id get the recipe; ids, names and the other cards are unchanged |
| Cravings.WithRecipeIdempotent | src/pages/Cravings.tsx:113-115 | attaching the same recipe twice equals attaching it once |
| Cravings.TextAnalysis | src/pages/Cravings.tsx:45-66 | a text analysis that yields a card has a non-empty name and a recipe |
| Cravings.LinkAnalysis | src/pages/Cravings.tsx:80-95 | a link analysis that yields a card names it by the identified food name |
| Cravings.NoRecipeModes | src/pages/Cravings.tsx:53-93 | without a recipe the link mode still adds the card, the text mode rejects with the recipe error |
| Cravings.TextFallsBackToInput | src/pages/Cravings.tsx:46-47 | when nothing is identified the input itself names the dish |
| Cravings.CravingsPage.constructor | src/pages/Cravings.tsx:22-29 | text mode, empty inputs, no cards, no modal, not loading |
| Cravings.CravingsPage.SelectMode | src/pages/Cravings.tsx:128-140 | choosing a mode clears the error and keeps the cards and inputs |
| Cravings.CravingsPage.AddCard | src/pages/Cravings.tsx:65-95 | the card is prepended and shown in the modal |
| Cravings.CravingsPage.Settle | src/pages/Cravings.tsx:48-100 | a rejected analysis sets its error; a found one prepends its card and opens it; loading ends |
| Cravings.CravingsPage.Run | src/pages/Cravings.tsx:37-101 | a blank input only sets its error; otherwise the error clears, the analysis settles and loading ends |
| Cravings.CravingsPage.AnalyzeText | src/pages/Cravings.tsx:37-71 | blank text gives the empty-input error; otherwise the trimmed text's analysis decides between an error and a new card; loading ends |
| Cravings.CravingsPage.AnalyzeLink | src/pages/Cravings.tsx:72-101 | a blank link gives the empty-link error; otherwise the link's analysis decides between an error and a new card; loading ends |
| Cravings.CravingsPage.OpenCard | src/pages/Cravings.tsx:104-121 | a card with a recipe just opens; otherwise a fetched recipe is attached to the card's id and opened, none leaves all as it was, a throw escapes; the loading id clears |
| RecipeExtract.RunEnd | docs/examples/python_recipe_search.py:226-255 | the scan stops at the first position past i whose character fails the test, and every character before it passes |
| RecipeExtract.Cuisine | docs/examples/python_recipe_search.py:212-223 | the cuisine is one of the six names, and "Chinese" exactly when no keyword of the five checks occurs |
| RecipeExtract.RegionalIgnoresDishName | docs/examples/python_recipe_search.py:214-219 | when the text names a Sichuan, Cantonese or Hunan cue, the cuisine is that region whatever the dish is called |
| RecipeExtract.SichuanFirst | docs/examples/python_recipe_search.py:214-215 | content mentioning 川菜 is Sichuan whatever else it holds |
| RecipeExtract.ItalianByName | docs/examples/python_recipe_search.py:220-221 | with no regional keyword, a dish name containing 意大利 gives Italian |
| RecipeExtract.Difficulty | docs/examples/python_recipe_search.py:228-233 | easy exactly for at most 5 steps, medium for 6 to 10, hard beyond |
| RecipeExtract.StepsFromGrows | docs/examples/python_recipe_search.py:226-227 | appending text never loses a numbered step line |
| RecipeExtract.MoreTextNeverEasier | docs/examples/python_recipe_search.py:226-233 | appending text never lowers the step count, so a hard recipe stays hard and an easy extension was easy |
| RecipeExtract.OneLineIsEasy | docs/examples/python_recipe_search.py:226 | no step line starts after position 0 of a single-line text |
| RecipeExtract.FirstTimeSkips | docs/examples/python_recipe_search.py:237 | the search for a time range skips text without digits |
| RecipeExtract.NoDigitsDefaultTime | docs/examples/python_recipe_search.py:236-239 | content without digits gets the default "30-45 minutes" |
| RecipeExtract.TimeAtRange | docs/examples/python_recipe_search.py:237 | digits, a separator, digits, blanks and a minutes word form a match of their two numbers |
| RecipeExtract.TimeRangeRead | docs/examples/python_recipe_search.py:236-239 | the first "low-high minutes" (or 分钟) after digit-free text is reported as "low-high minutes" |
| RecipeExtract.RowsSkip | docs/examples/python_recipe_search.py:243-244 | text before the first '\|' yields no rows |
| RecipeExtract.RowsCons | docs/examples/python_recipe_search.py:243-244 | a row `\|name\|amount\|` is read as its stripped cells and scanning resumes after the closing pipe |
| RecipeExtract.AfterPipeCons | docs/examples/python_recipe_search.py:243-244 | after an opening pipe, two cells and their pipes are read as one row |
| RecipeExtract.CellEnd | docs/examples/python_recipe_search.py:243 | a cell ends at the next pipe |
| RecipeExtract.RowsOfTable | docs/examples/python_recipe_search.py:243-248 | a table of rows with non-blank cells reads back as those rows, stripped |
| RecipeExtract.Decimal | docs/examples/python_recipe_search.py:257 | a number read from digits is never negative |
| RecipeExtract.ParseAmountAsWritten | docs/examples/python_recipe_search.py:255-261 | the amount parse exactly as the pattern backtracks, including bare numbers; its unit is never empty and its quantity never negative |
| RecipeExtract.ParseAmount | docs/examples/python_recipe_search.py:255-261 | the corrected amount parse always gives a non-empty unit and a non-negative quantity |
| RecipeExtract.ParseAmountAgrees | docs/examples/python_recipe_search.py:255-258 | whenever something follows the number and its blanks, the corrected parse equals the parse as written |
| RecipeExtract.BareCountAsWritten | docs/examples/python_recipe_search.py:255-258 | as written, the amount "12" reads as 1 of unit "2" |
| RecipeExtract.LoneDigitAsWritten | docs/examples/python_recipe_search.py:255-261 | as written, the amount "2" reads as the default 1 份 |
| RecipeExtract.BareCount | docs/examples/python_recipe_search.py:255-261 | corrected, a bare number n reads as n 份 |
| RecipeExtract.AmountPositions | docs/examples/python_recipe_search.py:255 | for n, blanks and a unit, the number, the blanks and the unit end where they should |
| RecipeExtract.AmountRead | docs/examples/python_recipe_search.py:255-258 | both parses read "n unit" as quantity n and that unit |
| RecipeExtract.ReadAmount | docs/examples/python_recipe_search.py:255-261 | under either reading of the amount pattern the unit is non-empty and the quantity non-negative |
| RecipeExtract.ExtractIngredients | docs/examples/python_recipe_search.py:242-268 | under the chosen reading of the amount, the loop collects exactly the ingredient list specified from the table rows |
| RecipeExtract.ReadingsAgreeOnNames | docs/examples/python_recipe_search.py:246-268 | the two readings give the same number of ingredients with the same names |
| RecipeExtract.BareCountRow | docs/examples/python_recipe_search.py:255-268 | the row 盐 \| 12 reads as 1 of unit "2" as written and as 12 份 corrected |
| RecipeExtract.IngredientsShape | docs/examples/python_recipe_search.py:246-268 | under either reading, every ingredient is essential, not a header, stripped, with a non-negative quantity and a unit |
| RecipeExtract.RowsStripped | docs/examples/python_recipe_search.py:247-248 | every row read has stripped cells |
| RecipeExtract.TableIngredients | docs/examples/python_recipe_search.py:243-268 | under either reading, a table of header rows then body rows yields one ingredient per body row, in order, with that row's name and amount |
| RecipeExtract.HeadSkipped | docs/examples/python_recipe_search.py:250-252 | header rows are skipped and body rows kept |
| RecipeExtract.ExtractStructuredInfo | docs/examples/python_recipe_search.py:201-275 | cuisine, difficulty, time and ingredients are each their specified values, the ingredients under the chosen reading of the amount |
| RecipeExtract.Underscored | docs/examples/python_recipe_search.py:317 | the name keeps its length with every space replaced by '_' |
| RecipeExtract.RecipeFilename | docs/examples/python_recipe_search.py:315-318 | a given non-empty filename is used as is |
| RecipeExtract.SafeNameChars | docs/examples/python_recipe_search.py:317 | the safe name has no spaces; every character is a word character, a hyphen, an underscore or another blank the pattern keeps; no blank sits at either end |
| RecipeExtract.SafeNameIdempotent | docs/examples/python_recipe_search.py:317 | sanitising a sanitised name changes nothing |
| RecipeExtract.DefaultFilename | docs/examples/python_recipe_search.py:315-318 | without a filename the name is recipe_<safe name>.json and has no spaces |

## Left out

- Network and SDK calls, React rendering, effects, focus handling, CSS transitions, object URLs and previews. These are I/O or presentation. Every call's outcome is a parameter. Each `navigate(...)` is a returned value:
  - `ScanResults.ScanResultsPage.SaveToInventory` returns `navigated`;
  - `ShoppingList.ShoppingListPage.ApplyAddItems` and `WebShoppingList.WebShoppingListPage.ApplyAddItems` return `stateCleared` for the navigation that empties the location state;
  - `Scan.ScanPage.HandleScan` returns `navigatedWith`;
  - `Scanner.ScannerPanel.RunScan` returns `completed`.
- Decoding, drawing and JPEG encoding of images. These belong to the browser. The drawn canvas is an array and the encoder is a function parameter, so the resampling of `drawImage` is not modelled.
- IEEE-754 doubles. Every number is an exact real, and `Math.round` rounds halves up as JavaScript does. The quality steps 0.85, 0.75 … 0.25 never sit close enough to 0.3 for float error to change a comparison.
- `Number(...)` of a string. The model reads the decimal form: sign, digits, point, digits, surrounding blanks. Exponents, hexadecimal, `Infinity` and the numeric separators are not modelled.
- `toLowerCase`, `trim` and `\s`. Case folding is ASCII only. Whitespace is the set JavaScript's `trim` and Python's `strip` use, written out in `Text`. The Unicode-aware lower-casing of non-ASCII letters is not modelled.
- Python's `\d`, `\w` and `re.IGNORECASE`:
  - `\d` is the ASCII digits, so Unicode digits in recipe text are not recognised;
  - `\w` is a parameter `isWord`, because it depends on Unicode tables;
  - `IGNORECASE` folds ASCII only (Python also matches, for example, the long s `ſ` against `s`).
- Python's `float(...)` gives an exact decimal real. The default `quantity = 1` is the real 1.0 rather than the integer 1.
- `Promise.all`. Files are read and preprocessed in order. The first failing one (in that order) is the error, whereas the browser reports the first to fail in time. `Scanner.PromiseAll` models the promise that never settles.
- Thrown values that are not `Error` objects:
  - The backend pages model them as `Backend.Failed(None)`, which shows the fallback message.
  - The cravings and scan pages take every throw to carry a message. Their fallbacks for other throws ("分析失败", "扫描失败，请重试") are not modelled.
- `Cravings.CravingsPage.OpenCard`: a rejected recipe fetch escapes `openCard` as an unhandled rejection. It is returned as `escaped` after the loading id clears.
- Local storage of the web pages. `kitchenflow-web/src/services/storage.ts` is not part of this model, and its calls are taken to succeed and return what was last stored.
- The app's `src/services/api.ts` forwarding layer. It is not modelled beyond the outcome each page receives.
- `console.error` logging in the validators, and `print` and file writing in `save_recipe_to_file`. Only the file name it chooses is modelled.
- The rest of the Python example: the search, page fetching and `get_og_image`. These are network code outside the extraction core.
- `ImageProcessing.Preprocess` models both rejections ("Failed to get canvas context", "Failed to load image") and the promise that never settles. It requires positive size bounds and a canvas of exactly 4 bytes per pixel of the scaled size. A bound of 0 or below is not modelled: the ratio then becomes 0, negative or NaN, the canvas side is set from it by the browser's own conversion, and with enhancement on the promise never settles.
- The JPEG encoder's output is a parameter, so `ImageProcessing.Compress` and `ImageProcessing.Preprocess` fix the final quality by the loop's condition, not by any property of JPEG sizes.
- `Formatters.SimpleScore`: the source splits strings into UTF-16 code units; the model splits into Unicode characters, so characters outside the Basic Multilingual Plane (most emoji) count once rather than as two surrogate halves.
- `RecipeExtract.ExtractIngredients`, `RecipeExtract.ExtractStructuredInfo` and the lemmas about them take a `Reading`: `AsWritten` reads amounts with `RecipeExtract.ParseAmountAsWritten`, as the program does, and `Corrected` with `RecipeExtract.ParseAmount`; see Findings.
- `Formatters.TopMatches` takes `limit` as a natural number. JavaScript's `slice(0, limit)` with a negative limit drops that many candidates from the end; no caller passes one.
- `KitchenFlowPrompts` and `PromptTemplates` take `imageCount` as a natural number. The prompts only compare it with 1, and no caller passes a negative count.
- `ScanResults.SavedItems` gives every item its own clock reading for the id and for `addedAt`, as the page does, and `ShoppingList.Merged` gives every appended entry its own reading for `addedAt`; nothing is assumed about how the readings relate. A single `addItem` reads the clock once, as its one `now` parameter.

## Findings

| source | as written | input that shows it | evidently intended | confidence | as-written member | corrected member |
|---|---|---|---|---|---|---|
| docs/examples/python_recipe_search.py:255-261 | `(\d+\.?\d*)\s*(\S+)` needs at least one character after the number. For a bare number the pattern backtracks: one digit becomes the unit, and a lone digit does not match at all | amount "12" gives quantity 1.0 and unit "2"; amount "2" gives the default 1 份 | a bare number n is n 份, and agrees with the as-written parse whenever a unit follows | high (not executed) | RecipeExtract.ParseAmountAsWritten, RecipeExtract.BareCountAsWritten | RecipeExtract.ParseAmount, RecipeExtract.BareCount |

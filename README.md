# Recipe generator core, modelled in Dafny

The repository is a pair of Streamlit front ends, `app.py` (tabbed, one recipe
at a time) and `1st.py` (single page, every recipe listed). Both turn an
uploaded photo into recipe suggestions in the same way:

1. They ask a food recogniser for concepts and keep the names whose confidence is above 0.85.
2. They query a find-by-ingredients service with those names.
3. They fetch full details for each candidate and drop the failures.
4. They show the survivors.

Each recipe can be exported as a PDF and saved to a favourites file.

This project models that shared core. Every HTTP answer is an input: a status
code plus the already-parsed JSON fields the scripts read. The model is split
into one module per component:

- `Payloads` (payloads.dfy): the response and recipe records. It also holds
  Python truthiness of optional strings and the `Frontend` tag that tells the
  two scripts apart.
- `Concepts` (concepts.dfy): the confidence filter of `clarifai_predict`.
- `Details` (details.dfy): `get_recipe_information` and the order-preserving
  fan-out that builds `detailed_recipes`.
- `Markup` (markup.dfy): the tag stripper `re.sub('<[^<]+?>', '', text)`. It is
  specified as a leftmost, non-overlapping, lazy match, and its consequences
  are proved.
- `Ingredients` (ingredients.dfy): the `a or b or c or default` description
  chain, with its export default and its display default.
- `Document` (document.dfy): the text blocks of `create_recipe_pdf`, written
  step by step and proved against a specification function.
- `Favorites` (favorites.dfy): `save_favorite_recipe`. It is an add-if-absent
  operation keyed by recipe id. The file is a class with the stored list and a
  counter of rewrites.
- `Pipeline` (pipeline.dfy): the main block's branching as a pure function over
  the three answers. It records every call made, the outcome and the messages
  shown. It also holds the 1st.py render loop and the recipe navigation of app.py.

Points where the code behaves differently from what one might expect:

- Detected names form a list, not a set. Order and duplicates are kept as the
  recogniser sent them (`Concepts.AcceptedNamesAppend`).
- A failing recogniser is not a separate outcome. `clarifai_predict` reports the
  error and returns `[]`, so the run then ends exactly as when nothing was
  detected (`Pipeline.RecognizerFailureMasked`).
- When every detail call fails, no "No recipes found" message is shown. The
  main block has no branch for an empty `detailed_recipes`, so nothing is
  rendered and no message appears (`Pipeline.AllDetailsFailSilently`).
- The "No instructions available." placeholder is chosen before tags are
  stripped. Instructions made only of markup therefore export as an empty
  block (`Document.MarkupOnlyInstructionsExportBlank`).

## Model

| member | source | states |
|---|---|---|
| Concepts.AcceptedNames | app.py:162-163 | A name is in the result iff some concept with that name has value > 0.85. The result is empty iff no concept passes, and it is never longer than the concept list. |
| Concepts.AcceptedNamesAppend | app.py:163 | Filtering distributes over concatenation, so response order and duplicate names are preserved. |
| Concepts.SingleConcept | 1st.py:44 | A single concept is kept iff its value is strictly above 85/100; 0.85 itself is dropped. |
| Concepts.AcceptedNamesAt | app.py:163 | An accepted concept's name sits between the names from the concepts before it and those after it. |
| Concepts.Recognize | app.py:158-163 | A non-200 status gives []. A missing `concepts` key gives []. Otherwise every accepted name is returned and only accepted names are. |
| Concepts.FailureIndistinguishable | 1st.py:40-44 | A non-200 answer and a 200 answer with nothing above the threshold both give []. |
| Details.RecipeInformation | app.py:165-173 | The result is a payload iff the status is 200 and the body is truthy, and that payload is the body. |
| Details.Survivors | app.py:295-299 | The detailed list is never longer than the candidate list. |
| Details.SurvivorsMembers | app.py:296-299 | A recipe survives iff some candidate's detail call yields it. |
| Details.SurvivorsAppend | app.py:296-299 | Survivors of a concatenation are the survivors of each part in order, so the fan-out never reorders. |
| Details.SurvivorsEmpty | app.py:298-301 | The detailed list is empty iff every detail call fails. |
| Details.SurvivorsAllSucceed | app.py:296-299 | When every call succeeds, there is one survivor per candidate, at the candidate's own position. |
| Details.SingleFailureDropsOnlyIt | app.py:296-299 | One failing call among successes removes exactly that candidate. Every other candidate's payload sits at its own position, shifted down by one after the failed one, so finder order is kept. |
| Details.FetchDetails | app.py:295-299 | The loop's list equals the survivors, and it requests each candidate's id exactly once, in finder order. |
| Markup.TagLength | app.py:206 | The match at the start of the text is the shortest prefix of the form `<`, one or more non-`<`, `>`. It is None iff no prefix has that form. |
| Markup.StripTags | app.py:206 | The output is never longer than the input. |
| Markup.StripTagsNoOpen | app.py:206 | Text without `<` is unchanged. |
| Markup.StripTagsSubsequence | app.py:206 | The output is the input with some characters deleted, so the characters that survive keep their order. |
| Markup.StripTagsPlainPrefix | app.py:206 | A prefix without `<` is copied verbatim and scanning resumes after it. |
| Markup.StripTagsRemovesTag | app.py:206 | A tag `<body>` with a non-empty body free of `<` and `>` is removed whole. |
| Markup.StripExample | app.py:204-206 | "<p>Mix <b>well</b></p>" becomes "Mix well". |
| Markup.EmptyTagBoundary | app.py:206 | "<>" survives unchanged, and "<>>" is removed entirely. |
| Markup.StripNotIdempotent | app.py:206 | "<<a>b>" becomes "<b>", which a second pass removes, so stripping is not idempotent. |
| Ingredients.FirstTruthy | app.py:196 | The result is the first truthy field, with no truthy field before it. With no truthy field it is the default. |
| Ingredients.ExportDescription | app.py:196 | The export description is never empty. |
| Ingredients.DisplayDescription | app.py:338 | The display description is never empty. |
| Ingredients.DescriptionPriority | 1st.py:67 | The chain tries originalString, then original, then name, and treats "" as missing. With none of them it falls back to the default. |
| Ingredients.ExportDisplayAgree | 1st.py:140 | The export and display descriptions coincide iff the ingredient has a usable field. |
| Document.DocumentText | app.py:175-209 | The document has exactly four blocks more than the recipe has ingredients. |
| Document.RenderDocument | app.py:176-209 | The block-by-block construction yields: title, "Ingredients:", one bullet per ingredient, "Instructions:", then the instructions block. |
| Document.IngredientSection | app.py:192-197 | Each bullet is "- " followed by that ingredient's non-empty export description, in order, between the two headers. |
| Document.InstructionsFallback | 1st.py:73-77 | Absent or empty instructions give "No instructions available.". 1st.py otherwise copies the text verbatim. |
| Document.AppInstructionsAreStripped | app.py:203-207 | The exported instructions are never longer than the original and are a subsequence of it. |
| Document.FrontendsAgreeWithoutMarkup | 1st.py:56-77 | When the instructions contain no `<`, both front ends export the same text. |
| Document.MarkupOnlyInstructionsExportBlank | app.py:203-209 | Instructions "<br>" export as an empty block, not as the placeholder. |
| Document.ExportExample | app.py:203-207 | A recipe whose instructions are "<p>Mix <b>well</b></p>" exports "Mix well". |
| Favorites.AddIfAbsent | app.py:222-227 | Returns True iff no entry has the recipe's id. The list becomes old + [recipe] when True and stays unchanged when False. |
| Favorites.AddKeepsPrefixAndUniqueness | app.py:222-223 | Existing entries remain a prefix, the list grows by at most one, and unique ids stay unique. |
| Favorites.AddMakesPresent | app.py:222-223 | After the add, the recipe's id is present. |
| Favorites.SaveTwice | 1st.py:91-96 | Saving one recipe twice returns True then False. The second save changes nothing, and exactly one entry has the id. |
| Favorites.FavoritesFile.constructor | app.py:215-220 | The file starts as given, with no rewrites. An absent file reads as []. |
| Favorites.FavoritesFile.Save | app.py:214-227 | The result and the new contents are those of AddIfAbsent on the loaded list. On an add the file is rewritten once with the new list; otherwise the file and the write count are untouched. |
| Pipeline.JoinSplitRoundTrip | app.py:281 | When no name contains a comma, splitting the comma-joined query gives back the detected names in order. |
| Pipeline.RunPipeline | app.py:265-370 | No ingredients means no finder call and no detail call. A finder non-200 gives FinderFailed with its status. A 200 with no candidates gives NoRecipesFound. Otherwise the outcome is the survivors, with one detail request per candidate and no message. The finder query is the joined names with number 3 and ranking 1. |
| Pipeline.NoticesByOutcome | 1st.py:169-174 | Each outcome shows its front end's message: the recogniser error (if any) and then "No ingredients detected…", the finder error with its status, or "No recipes found…". |
| Pipeline.RecognizerFailureMasked | app.py:159-161 | A failing recogniser ends the run exactly like one that detected nothing. The only difference is the leading error message. |
| Pipeline.AllDetailsFailSilently | app.py:295-301 | If every detail call fails, the outcome is an empty detailed list and no message is shown. Nothing is rendered, and every candidate was still requested. |
| Pipeline.OneDetailFailureKeepsOthers | 1st.py:131-133 | One failed detail call among successes leaves exactly the other candidates' payloads, each at its finder position less one after the failed one. |
| Pipeline.CardOf | 1st.py:135-141 | A rendered recipe keeps its id, title and image. It has one line per ingredient, in order, each "- " followed by that ingredient's non-empty display description. |
| Pipeline.RenderEach | 1st.py:131-141 | The render loop shows exactly one card per surviving recipe, in finder order. It requests each candidate once, in order. |
| Pipeline.RenderAsWritten | 1st.py:131-136 | The loop as written never requests more ids than there are candidates, requests them in finder order, and renders at most one complete card per request. When it stops, it reports the title of the card it broke off. |
| Pipeline.RenderAsWrittenStops | 1st.py:131-136 | The loop stops on an error iff some surviving payload has no image. The title it broke off at belongs to such a payload. |
| Pipeline.RenderAsWrittenWithImages | 1st.py:131-141 | When every surviving payload has an image, the loop as written renders exactly the cards of the survivors and requests every candidate, in order. |
| Pipeline.MissingImageStopsRender | 1st.py:133-136 | Two recipes survive the detail calls, but the first has no image. No complete card is shown: the first title is drawn, then the error ends the run, and the second id is never requested. |
| Pipeline.ButtonIndex | app.py:305-313 | The three buttons select positions 0, 1 and 2 only. |
| Pipeline.Navigation.constructor | app.py:291-292 | A new session has no recipe index. |
| Pipeline.Navigation.InitIndex | app.py:291-292 | The index is set to 0 only when the session has none; an existing index is kept. |
| Pipeline.Navigation.Press | app.py:306-313 | A button press sets the index to its position, whatever the list length. |
| Pipeline.SelectAsWritten | app.py:317 | Unchecked list indexing is defined only below the length, and yields an element of the list. |
| Pipeline.ThirdButtonOverrunsShortList | app.py:296-317 | With three candidates and a failed middle detail call, two recipes survive, yet button "3" selects position 2. |
| Pipeline.SelectedRecipe | app.py:317 | Always a surviving recipe. It agrees with the unchecked read wherever that read is defined. |
| Pipeline.Rendered | app.py:301-317 | For a session index from 0 to 2 (the only values the buttons set): nothing is rendered outside a non-empty detailed list. app.py renders exactly the selected recipe; 1st.py renders every survivor in order. |

## Findings

| source | as written | input that shows it | evidently intended | confidence | as-written member | corrected member |
|---|---|---|---|---|---|---|
| 1st.py:136 | `recipe['image']` is read without a default, and the same read appears at app.py:324. Only `create_recipe_pdf` uses `.get("image")` (app.py:183). A payload without an image raises KeyError inside the render loop, and the script stops there. | The finder returns 2 candidates, and the first detail payload has no `image` key. The separator and the first recipe's title are drawn, then KeyError ends the run. No complete card is shown, and the second id is never requested. | Every survivor is rendered, with the image shown only when present. | medium; not executed | Pipeline.MissingImageStopsRender | Pipeline.RenderEach |
| app.py:317 | `detailed_recipes[st.session_state.recipe_index]` is read with no bound check. The index is 0, 1 or 2, set by the buttons or left over from an earlier run, but the list is shorter than 3 whenever a detail call fails. | The finder returns 3 candidates, the second detail call fails, and the user presses "3". The list has 2 recipes and the read at index 2 raises IndexError. | Show a recipe that exists; the model clamps to the last survivor. | high; not executed | Pipeline.ThirdButtonOverrunsShortList | Pipeline.SelectedRecipe |

`Pipeline.SelectAsWritten` carries the unchecked read with its implicit bound
as a precondition. `Pipeline.Rendered` uses the corrected selection.
`Pipeline.RenderAsWritten` is the 1st.py loop with the image read as written.
`Pipeline.RenderEach` is the corrected loop. Its cards carry the image as an
option, so every survivor is rendered.

## Left out

- Streamlit presentation is left out. This covers page setup, CSS, the sidebar,
  columns, tabs, spinners, success banners, images and the markdown rendering
  of instructions on screen, including the "No instructions provided…" texts.
  A rendered recipe is modelled only by its id, title, image and ingredient
  lines.
- HTTP requests, API keys and environment loading are left out. Each answer is
  an input, and a detail answer is a function of the recipe id, so a repeated
  id gets the same answer each time. The finder promises at most three
  candidates; the model accepts any number.
- Error texts are not formatted. A notice carries its fixed text and the status
  as an integer. The recogniser's `response.text` is not modelled.
- Malformed payloads are not modelled. A missing `outputs`, `value`, `id` or
  `title` raises an exception in the scripts. The payload records always have
  those fields, and a falsy detail body (`null`, `{}`) is modelled as an absent
  body.
- Image decoding, JPEG re-encoding and base64 encoding of the upload are library
  calls and are left out.
- FPDF layout is left out: fonts, cell sizes, line breaks and spacing. So are
  the best-effort image embed with its bare `except`, and the latin-1 encoding
  of the output, which fails on characters outside Latin-1. The 1st.py output
  path is also left out. Only the text blocks are modelled.
- JSON parsing and writing of the favourites file are left out, and so is the
  read-modify-write race between concurrent saves. The file is a stored list
  plus a rewrite counter.
- `generate_ai_reason` is left out. It is random decorative text.
- Pipeline.RenderAsWritten: a card broken off by the missing-image error is
  recorded only by its title. The separator drawn before it (1st.py:134) is
  not modelled.
- Pipeline.Rendered: app.py:324 reads `recipe['image']` without a default, as
  1st.py:136 does (see Findings). The selected recipe's card carries the image
  as an option, so a survivor without an image is still shown.
- Confidence values are Dafny reals compared with 0.85. IEEE rounding is not modelled.
- Streamlit's rerun model, in which a button returns True only on the rerun
  its click causes, is not modelled. `Navigation.Press` is one click.

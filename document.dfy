/** `create_recipe_pdf` with the page layout abstracted away: the text blocks
    written to the document, in order. Fonts, cell sizes, spacing, the
    optional image and the byte encoding are not part of this model. */
module Document {
  import opened Payloads
  import opened Ingredients
  import opened Markup

  const INGREDIENTS_HEADER: string := "Ingredients:"
  const INSTRUCTIONS_HEADER: string := "Instructions:"
  const NO_INSTRUCTIONS: string := "No instructions available."

  /** The bullet written for one ingredient. */
  function IngredientLine(ing: Ingredient): string
  {
    "- " + ExportDescription(ing)
  }

  /** The instructions block: app.py strips tags from the text, 1st.py copies
      it raw; both fall back to the placeholder when the field is absent or empty. */
  function InstructionsBlock(frontend: Frontend, recipe: Recipe): string
  {
    if Truthy(recipe.instructions) then
      (if frontend == App then StripTags(recipe.instructions.value) else recipe.instructions.value)
    else NO_INSTRUCTIONS
  }

  /** The document text: title, the ingredients header, one bullet per
      ingredient in order, the instructions header, the instructions block. */
  function DocumentText(frontend: Frontend, recipe: Recipe): (lines: seq<string>)
    ensures |lines| == |IngredientsOf(recipe)| + 4
  {
    var ings := IngredientsOf(recipe);
    [recipe.title, INGREDIENTS_HEADER]
    + seq(|ings|, k requires 0 <= k < |ings| => IngredientLine(ings[k]))
    + [INSTRUCTIONS_HEADER, InstructionsBlock(frontend, recipe)]
  }

  /** The page is written step by step: a cell per heading and a multi-cell
      per ingredient, appended in the order the source issues them. */
  method RenderDocument(frontend: Frontend, recipe: Recipe) returns (lines: seq<string>)
    ensures lines == DocumentText(frontend, recipe)
  {
    lines := [recipe.title];
    lines := lines + [INGREDIENTS_HEADER];
    var ings := IngredientsOf(recipe);
    for i := 0 to |ings|
      invariant |lines| == 2 + i
      invariant lines[..2] == [recipe.title, INGREDIENTS_HEADER]
      invariant forall k :: 0 <= k < i ==> lines[2 + k] == IngredientLine(ings[k])
    {
      lines := lines + [IngredientLine(ings[i])];
    }
    if Truthy(recipe.instructions) {
      var text := recipe.instructions.value;
      if frontend == App {
        text := StripTags(text);
      }
      lines := lines + [INSTRUCTIONS_HEADER, text];
    } else {
      lines := lines + [INSTRUCTIONS_HEADER, NO_INSTRUCTIONS];
    }
  }

  /** Reading the bullets back between the two headers recovers every
      ingredient's export description, in order, each one non-empty. */
  lemma IngredientSection(frontend: Frontend, recipe: Recipe)
    ensures var lines := DocumentText(frontend, recipe);
      var ings := IngredientsOf(recipe);
      lines[0] == recipe.title && lines[1] == INGREDIENTS_HEADER &&
      lines[|lines| - 2] == INSTRUCTIONS_HEADER &&
      forall k :: 0 <= k < |ings| ==>
        lines[2 + k][..2] == "- " && lines[2 + k][2..] == ExportDescription(ings[k]) && |lines[2 + k]| > 2
  {
  }

  /** Missing or empty instructions give the placeholder; present ones never do
      in 1st.py, which copies the text verbatim. */
  lemma InstructionsFallback(frontend: Frontend, recipe: Recipe)
    ensures var lines := DocumentText(frontend, recipe);
      (!Truthy(recipe.instructions) ==> lines[|lines| - 1] == NO_INSTRUCTIONS) &&
      (Truthy(recipe.instructions) && frontend == First ==> lines[|lines| - 1] == recipe.instructions.value)
  {
  }

  /** The exported instructions are the stripped text, which is never longer
      than the original and keeps the surviving characters in order. */
  lemma AppInstructionsAreStripped(recipe: Recipe)
    requires Truthy(recipe.instructions)
    ensures var last := DocumentText(App, recipe)[|IngredientsOf(recipe)| + 3];
      |last| <= |recipe.instructions.value| && IsSubsequence(last, recipe.instructions.value)
  {
    StripTagsSubsequence(recipe.instructions.value);
  }

  /** The two front ends export the same text whenever the instructions hold no `<`. */
  lemma FrontendsAgreeWithoutMarkup(recipe: Recipe)
    requires recipe.instructions.Some? ==> NoOpen(recipe.instructions.value)
    ensures DocumentText(App, recipe) == DocumentText(First, recipe)
  {
    if Truthy(recipe.instructions) {
      StripTagsNoOpen(recipe.instructions.value);
    }
  }

  /** The placeholder is chosen before stripping, so instructions made only of
      markup export as an empty block rather than the placeholder. */
  lemma MarkupOnlyInstructionsExportBlank(recipe: Recipe)
    requires recipe.instructions == Some("<br>")
    ensures DocumentText(App, recipe)[|IngredientsOf(recipe)| + 3] == ""
  {
  }

  /** Example: exporting "Mix well" as the instructions block. */
  lemma ExportExample(recipe: Recipe)
    requires recipe.instructions == Some("<p>" + "Mix " + "<b>" + "well" + "</b>" + "</p>")
    ensures DocumentText(App, recipe)[|IngredientsOf(recipe)| + 3] == "Mix well"
  {
    StripExample();
  }
}

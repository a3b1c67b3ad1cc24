/** The already-parsed payloads of the three HTTP services the recipe
    generator talks to, and the shared vocabulary of both front ends.
    Every network answer is an input of the model: a status code plus the
    parsed JSON fields the scripts read. */
module Payloads {

  datatype Option<+T> = None | Some(value: T)

  /** The two front ends of the repository over one shared core:
      the tabbed application (app.py) and the earlier single-page script (1st.py). */
  datatype Frontend = App | First

  /** Python truthiness of an optional string field, as used by `x or y`
      and `if recipe.get(...)`: an absent key (None) and "" are both false. */
  predicate Truthy(field: Option<string>)
  {
    field.Some? && field.value != ""
  }

  /** One `{name, value}` entry of the recogniser's `concepts` list; the
      confidence is a real number, not an IEEE float. */
  datatype Concept = Concept(name: string, value: real)

  /** The recogniser's answer: the HTTP status and `outputs[0].data.concepts`,
      None when that key is missing. */
  datatype RecognizerResponse = RecognizerResponse(status: int, concepts: Option<seq<Concept>>)

  /** One entry of the find-by-ingredients answer; only `id` drives the pipeline. */
  datatype Candidate = Candidate(id: int, title: string)

  datatype FinderResponse = FinderResponse(status: int, candidates: seq<Candidate>)

  /** One element of `extendedIngredients`; each field is None when its key is absent. */
  datatype Ingredient = Ingredient(originalString: Option<string>, original: Option<string>, name: Option<string>)

  /** The recipe-information payload, with the fields the core reads. */
  datatype Recipe = Recipe(
    id: int,
    title: string,
    image: Option<string>,
    extendedIngredients: Option<seq<Ingredient>>,
    instructions: Option<string>)

  /** The recipe-information answer; `body` is None when the parsed JSON
      is falsy (`null`, `{}`), which `if recipe:` treats like a failure. */
  datatype DetailResponse = DetailResponse(status: int, body: Option<Recipe>)

  /** `recipe.get("extendedIngredients", [])`. */
  function IngredientsOf(recipe: Recipe): seq<Ingredient>
  {
    match recipe.extendedIngredients
    case Some(ings) => ings
    case None => []
  }

  function CandidateId(c: Candidate): int
  {
    c.id
  }

  function RecipeId(recipe: Recipe): int
  {
    recipe.id
  }

  /** The ids of a list of records, in order: `[r["id"] for r in items]`. */
  function Ids<T>(items: seq<T>, key: T -> int): (ids: seq<int>)
    ensures |ids| == |items|
    ensures forall k :: 0 <= k < |items| ==> ids[k] == key(items[k])
  {
    seq(|items|, k requires 0 <= k < |items| => key(items[k]))
  }
}

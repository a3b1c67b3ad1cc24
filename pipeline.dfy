/** The main block of both front ends over stubbed service answers:
    recognise, query the finder, fan out the detail calls, and decide which
    message the user sees and which recipes are rendered. Every external call
    the block makes is recorded in the run, so "never called" can be stated. */
module Pipeline {
  import opened Payloads
  import opened Concepts
  import opened Details
  import opened Ingredients

  /** The finder's `number` and `ranking` parameters: at most three results,
      ranked to minimise missing ingredients. */
  const RESULT_CAP: int := 3
  const MINIMIZE_MISSING: int := 1

  datatype FinderQuery = FinderQuery(ingredients: string, number: int, ranking: int)

  /** `",".join(names)`. */
  function JoinComma(names: seq<string>): string
  {
    if names == [] then ""
    else if |names| == 1 then names[0]
    else names[0] + "," + JoinComma(names[1..])
  }

  /** Splitting at every comma, as the finder reads its `ingredients` parameter. */
  function SplitComma(s: string): (parts: seq<string>)
    ensures |parts| >= 1
  {
    if s == [] then [""]
    else
      var rest := SplitComma(s[1..]);
      if s[0] == ',' then [""] + rest else [[s[0]] + rest[0]] + rest[1..]
  }

  predicate NoComma(s: string)
  {
    forall k :: 0 <= k < |s| ==> s[k] != ','
  }

  lemma {:induction false} SplitPlain(x: string, rest: string)
    requires NoComma(x)
    ensures SplitComma(x) == [x]
    ensures SplitComma(x + "," + rest) == [x] + SplitComma(rest)
  {
    if x == [] {
      assert x + "," + rest == [','] + rest;
      assert ([','] + rest)[1..] == rest;
    } else {
      assert NoComma(x[1..]);
      SplitPlain(x[1..], rest);
      assert (x + "," + rest)[1..] == x[1..] + "," + rest;
      assert [x[0]] + x[1..] == x;
    }
  }

  /** The query string loses nothing when no detected name contains a comma:
      splitting it gives back the names in order. */
  lemma {:induction false} JoinSplitRoundTrip(names: seq<string>)
    requires names != []
    requires forall k :: 0 <= k < |names| ==> NoComma(names[k])
    ensures SplitComma(JoinComma(names)) == names
  {
    if |names| == 1 {
      SplitPlain(names[0], "");
    } else {
      JoinSplitRoundTrip(names[1..]);
      SplitPlain(names[0], JoinComma(names[1..]));
      assert [names[0]] + names[1..] == names;
    }
  }

  /** A message shown by `st.error` (with the HTTP status) or `st.warning`. */
  datatype Notice = Error(text: string, status: int) | Warning(text: string)

  /** How a run ends. `Detailed` carries the survivors of the fan-out, which may be empty. */
  datatype Outcome =
    | NoIngredients
    | FinderFailed(status: int)
    | NoRecipesFound
    | Detailed(recipes: seq<Recipe>)

  datatype Run = Run(
    ingredients: seq<string>,
    finderQueries: seq<FinderQuery>,
    detailRequests: seq<int>,
    outcome: Outcome,
    notices: seq<Notice>)

  const RECOGNIZER_ERROR: string := "Clarifai API error"

  function NoIngredientsText(frontend: Frontend): string
  {
    if frontend == App then "No ingredients detected. Try a clearer image of your ingredients."
    else "No ingredients detected."
  }

  function FinderErrorText(frontend: Frontend): string
  {
    if frontend == App then "Error fetching recipes" else "Spoonacular error"
  }

  function NoRecipesText(frontend: Frontend): string
  {
    if frontend == App then "No recipes found. Try different ingredients!" else "No recipes found."
  }

  /** `clarifai_predict` reports a failing recogniser itself, before returning []. */
  function RecognizerNotices(resp: RecognizerResponse): seq<Notice>
  {
    if resp.status != 200 then [Error(RECOGNIZER_ERROR, resp.status)] else []
  }

  /** One run of the main block over the three services' answers. */
  function RunPipeline(frontend: Frontend, recognizer: RecognizerResponse, finder: FinderResponse,
                       fetch: int -> DetailResponse): (run: Run)
    ensures run.ingredients == Recognize(recognizer)
    ensures run.outcome.NoIngredients? <==> run.ingredients == []
    ensures run.finderQueries == [] <==> run.ingredients == []
    ensures run.finderQueries != [] ==>
      run.finderQueries == [FinderQuery(JoinComma(run.ingredients), RESULT_CAP, MINIMIZE_MISSING)]
    ensures run.outcome.FinderFailed? <==> run.ingredients != [] && finder.status != 200
    ensures run.outcome.FinderFailed? ==> run.outcome.status == finder.status
    ensures run.outcome.NoRecipesFound? <==>
      run.ingredients != [] && finder.status == 200 && finder.candidates == []
    ensures run.outcome.Detailed? ==>
      run.outcome.recipes == Survivors(finder.candidates, fetch) &&
      run.detailRequests == Ids(finder.candidates, CandidateId) && run.notices == []
    ensures !run.outcome.Detailed? ==> run.detailRequests == []
  {
    var ingredients := Recognize(recognizer);
    var reported := RecognizerNotices(recognizer);
    if ingredients == [] then
      Run(ingredients, [], [], NoIngredients, reported + [Warning(NoIngredientsText(frontend))])
    else
      var queries := [FinderQuery(JoinComma(ingredients), RESULT_CAP, MINIMIZE_MISSING)];
      if finder.status != 200 then
        Run(ingredients, queries, [], FinderFailed(finder.status),
            reported + [Error(FinderErrorText(frontend), finder.status)])
      else if finder.candidates == [] then
        Run(ingredients, queries, [], NoRecipesFound, reported + [Warning(NoRecipesText(frontend))])
      else
        Run(ingredients, queries, Ids(finder.candidates, CandidateId), Detailed(Survivors(finder.candidates, fetch)), reported)
  }

  /** The messages of each outcome, in the wording of each front end: a
      recogniser error (if any) then the no-ingredients warning, the finder's
      error with its status, or the no-recipes warning. */
  lemma NoticesByOutcome(frontend: Frontend, recognizer: RecognizerResponse, finder: FinderResponse,
                         fetch: int -> DetailResponse)
    ensures var run := RunPipeline(frontend, recognizer, finder, fetch);
      (run.outcome.NoIngredients? ==>
        run.notices == RecognizerNotices(recognizer) + [Warning(NoIngredientsText(frontend))]) &&
      (run.outcome.FinderFailed? ==> run.notices == [Error(FinderErrorText(frontend), finder.status)]) &&
      (run.outcome.NoRecipesFound? ==> run.notices == [Warning(NoRecipesText(frontend))])
  {
  }

  /** A failing recogniser ends the run exactly like one that is confident
      about nothing: no finder call, the same outcome and warning; the only
      trace of the failure is the error reported in front of that warning. */
  lemma RecognizerFailureMasked(frontend: Frontend, failed: RecognizerResponse, quiet: RecognizerResponse,
                                finder: FinderResponse, fetch: int -> DetailResponse)
    requires failed.status != 200
    requires quiet.status == 200 && quiet.concepts.Some?
    requires forall k :: 0 <= k < |quiet.concepts.value| ==> !Accepted(quiet.concepts.value[k])
    ensures var a := RunPipeline(frontend, failed, finder, fetch);
      var b := RunPipeline(frontend, quiet, finder, fetch);
      a.outcome == b.outcome == NoIngredients && a.finderQueries == b.finderQueries == [] &&
      a.notices == [Error(RECOGNIZER_ERROR, failed.status)] + b.notices
  {
  }

  /** When every detail call fails nothing is rendered and no message at all
      is shown: there is no branch for an empty detailed list. */
  lemma AllDetailsFailSilently(frontend: Frontend, recognizer: RecognizerResponse, finder: FinderResponse,
                               fetch: int -> DetailResponse, index: nat)
    requires Recognize(recognizer) != []
    requires finder.status == 200 && finder.candidates != []
    requires forall k :: 0 <= k < |finder.candidates| ==> Fetched(finder.candidates[k], fetch).None?
    requires index <= 2
    ensures var run := RunPipeline(frontend, recognizer, finder, fetch);
      run.outcome == Detailed([]) && run.notices == [] && Rendered(frontend, run, index) == [] &&
      |run.detailRequests| == |finder.candidates|
  {
    SurvivorsEmpty(finder.candidates, fetch);
  }

  /** One failed detail call among the finder's candidates costs only that
      recipe: the others are rendered in finder order. */
  lemma OneDetailFailureKeepsOthers(frontend: Frontend, recognizer: RecognizerResponse, finder: FinderResponse,
                                    fetch: int -> DetailResponse, bad: nat)
    requires Recognize(recognizer) != []
    requires finder.status == 200 && bad < |finder.candidates|
    requires Fetched(finder.candidates[bad], fetch).None?
    requires forall k :: 0 <= k < |finder.candidates| && k != bad ==> Fetched(finder.candidates[k], fetch).Some?
    ensures var run := RunPipeline(frontend, recognizer, finder, fetch);
      run.outcome.Detailed? && |run.outcome.recipes| == |finder.candidates| - 1 &&
      run.outcome.recipes == Survivors(finder.candidates[..bad], fetch) + Survivors(finder.candidates[bad + 1..], fetch) &&
      forall k :: 0 <= k < |finder.candidates| && k != bad ==>
        Some(run.outcome.recipes[if k < bad then k else k - 1]) == Fetched(finder.candidates[k], fetch)
  {
    SingleFailureDropsOnlyIt(finder.candidates, fetch, bad);
  }

  /** What a rendered recipe shows: its id, title, image (None when the
      payload has none) and a "- " bullet per ingredient. */
  datatype Card = Card(id: int, title: string, image: Option<string>, ingredientLines: seq<string>)

  function CardOf(recipe: Recipe): (card: Card)
    ensures card.id == recipe.id && card.title == recipe.title && card.image == recipe.image
    ensures |card.ingredientLines| == |IngredientsOf(recipe)|
    ensures forall k :: 0 <= k < |card.ingredientLines| ==>
      |card.ingredientLines[k]| > 2 &&
      card.ingredientLines[k][..2] == "- " && card.ingredientLines[k][2..] == DisplayDescription(IngredientsOf(recipe)[k])
  {
    var ings := IngredientsOf(recipe);
    Card(recipe.id, recipe.title, recipe.image, seq(|ings|, k requires 0 <= k < |ings| => "- " + DisplayDescription(ings[k])))
  }

  function Cards(recipes: seq<Recipe>): (cards: seq<Card>)
    ensures |cards| == |recipes|
  {
    seq(|recipes|, k requires 0 <= k < |recipes| => CardOf(recipes[k]))
  }

  /** The loop of 1st.py: each candidate is fetched once, in finder order,
      and every truthy payload is rendered on the spot. */
  method RenderEach(candidates: seq<Candidate>, fetch: int -> DetailResponse)
    returns (cards: seq<Card>, requested: seq<int>)
    ensures cards == Cards(Survivors(candidates, fetch))
    ensures requested == Ids(candidates, CandidateId)
  {
    cards, requested := [], [];
    for i := 0 to |candidates|
      invariant cards == Cards(Survivors(candidates[..i], fetch))
      invariant requested == Ids(candidates[..i], CandidateId)
    {
      var recipe := RecipeInformation(fetch(candidates[i].id));
      requested := requested + [candidates[i].id];
      ghost var before := Survivors(candidates[..i], fetch);
      assert candidates[..i + 1] == candidates[..i] + [candidates[i]];
      assert [candidates[i]][1..] == [];
      SurvivorsAppend(candidates[..i], [candidates[i]], fetch);
      if recipe.Some? {
        cards := cards + [CardOf(recipe.value)];
        assert Cards(before + [recipe.value]) == Cards(before) + [CardOf(recipe.value)];
      }
    }
    assert candidates[..|candidates|] == candidates;
  }

  /** The candidate's detail call yields a payload without an image. */
  predicate LacksImage(c: Candidate, fetch: int -> DetailResponse)
  {
    Fetched(c, fetch).Some? && Fetched(c, fetch).value.image.None?
  }

  /** Does some candidate's detail call yield a payload without an image? */
  predicate SomeSurvivorLacksImage(candidates: seq<Candidate>, fetch: int -> DetailResponse)
  {
    exists k :: 0 <= k < |candidates| && LacksImage(candidates[k], fetch)
  }

  lemma SomeSurvivorLacksImageCons(candidates: seq<Candidate>, fetch: int -> DetailResponse)
    requires candidates != []
    ensures SomeSurvivorLacksImage(candidates, fetch) <==>
      LacksImage(candidates[0], fetch) || SomeSurvivorLacksImage(candidates[1..], fetch)
  {
    if SomeSurvivorLacksImage(candidates, fetch) && !LacksImage(candidates[0], fetch) {
      var k :| 0 <= k < |candidates| && LacksImage(candidates[k], fetch);
      assert candidates[1..][k - 1] == candidates[k];
    }
    if SomeSurvivorLacksImage(candidates[1..], fetch) {
      var k :| 0 <= k < |candidates[1..]| && LacksImage(candidates[1..][k], fetch);
      assert candidates[k + 1] == candidates[1..][k];
    }
  }

  /** The 1st.py loop as written: `recipe['image']` raises KeyError on a
      payload without an image, which ends the script there, so the later
      candidates are neither requested nor rendered. The result is the
      complete cards shown, the ids requested and, when the run stopped on
      that error, the title of the recipe whose card it broke off: the
      separator and that title (1st.py:134-135) are drawn before the read. */
  function RenderAsWritten(candidates: seq<Candidate>, fetch: int -> DetailResponse): (shown: (seq<Card>, seq<int>, Option<string>))
    ensures |shown.0| <= |shown.1| <= |candidates|
    ensures shown.1 == Ids(candidates[..|shown.1|], CandidateId)
  {
    if candidates == [] then ([], [], None)
    else
      var first := candidates[0];
      var later := RenderAsWritten(candidates[1..], fetch);
      assert candidates[1..][..|later.1|] == candidates[1..1 + |later.1|];
      match Fetched(first, fetch)
      case None => (later.0, [first.id] + later.1, later.2)
      case Some(recipe) =>
        if recipe.image.None? then ([], [first.id], Some(recipe.title))
        else ([CardOf(recipe)] + later.0, [first.id] + later.1, later.2)
  }

  /** The loop as written stops exactly when some payload lacks an image,
      and the title it broke off at is that of such a payload. */
  lemma {:induction false} RenderAsWrittenStops(candidates: seq<Candidate>, fetch: int -> DetailResponse)
    ensures RenderAsWritten(candidates, fetch).2.Some? <==> SomeSurvivorLacksImage(candidates, fetch)
    ensures RenderAsWritten(candidates, fetch).2.Some? ==>
      exists k :: 0 <= k < |candidates| && LacksImage(candidates[k], fetch) &&
        Fetched(candidates[k], fetch).value.title == RenderAsWritten(candidates, fetch).2.value
  {
    if candidates != [] {
      RenderAsWrittenStops(candidates[1..], fetch);
      SomeSurvivorLacksImageCons(candidates, fetch);
    }
  }

  lemma IdsCons(candidates: seq<Candidate>)
    requires candidates != []
    ensures Ids(candidates, CandidateId) == [candidates[0].id] + Ids(candidates[1..], CandidateId)
  {
  }

  lemma CardsCons(recipe: Recipe, recipes: seq<Recipe>)
    ensures Cards([recipe] + recipes) == [CardOf(recipe)] + Cards(recipes)
  {
  }

  /** When every payload has an image, the loop as written renders every
      survivor and requests every candidate, like the corrected loop. */
  lemma {:induction false} RenderAsWrittenWithImages(candidates: seq<Candidate>, fetch: int -> DetailResponse)
    requires !SomeSurvivorLacksImage(candidates, fetch)
    ensures RenderAsWritten(candidates, fetch) == (Cards(Survivors(candidates, fetch)), Ids(candidates, CandidateId), None)
  {
    if candidates != [] {
      var rest := candidates[1..];
      SomeSurvivorLacksImageCons(candidates, fetch);
      RenderAsWrittenWithImages(rest, fetch);
      var later := RenderAsWritten(rest, fetch);
      var ids := Ids(candidates, CandidateId);
      IdsCons(candidates);
      match Fetched(candidates[0], fetch)
      case None =>
        assert Survivors(candidates, fetch) == Survivors(rest, fetch);
        assert RenderAsWritten(candidates, fetch) == (later.0, ids, None);
      case Some(recipe) =>
        assert Survivors(candidates, fetch) == [recipe] + Survivors(rest, fetch);
        CardsCons(recipe, Survivors(rest, fetch));
        assert RenderAsWritten(candidates, fetch) == ([CardOf(recipe)] + later.0, ids, None);
    }
  }

  /** A first payload without an image stops the page: two recipes survive
      the detail calls, yet no complete card is shown. Only the separator and
      the first title appear before the error, and the second id is never requested. */
  lemma MissingImageStopsRender()
    ensures var candidates := [Candidate(1, "a"), Candidate(2, "b")];
      var fetch := (id: int) =>
        DetailResponse(200, Some(Recipe(id, if id == 1 then "first" else "second", if id == 1 then None else Some("img"), None, None)));
      |Survivors(candidates, fetch)| == 2 && RenderAsWritten(candidates, fetch) == ([], [1], Some("first"))
  {
  }

  /** The three navigation buttons of app.py. */
  datatype NavButton = One | Two | Three

  function ButtonIndex(button: NavButton): (index: nat)
    ensures index <= 2
  {
    match button
    case One => 0
    case Two => 1
    case Three => 2
  }

  /** `st.session_state.recipe_index`, which survives across reruns and uploads. */
  class Navigation {
    var recipeIndex: Option<nat>

    predicate Valid()
      reads this
    {
      recipeIndex.Some? ==> recipeIndex.value <= 2
    }

    constructor ()
      ensures recipeIndex == None && Valid()
    {
      recipeIndex := None;
    }

    /** Set to 0 only if the session has no index yet. */
    method InitIndex()
      requires Valid()
      modifies this
      ensures Valid() && recipeIndex.Some?
      ensures recipeIndex == if old(recipeIndex).None? then Some(0) else old(recipeIndex)
    {
      if recipeIndex.None? {
        recipeIndex := Some(0);
      }
    }

    /** A button press selects its recipe position, whatever the list length. */
    method Press(button: NavButton)
      modifies this
      ensures Valid() && recipeIndex == Some(ButtonIndex(button))
    {
      recipeIndex := Some(ButtonIndex(button));
    }
  }

  /** `detailed_recipes[st.session_state.recipe_index]` as written: Python
      list indexing, defined only below the list's length. */
  function SelectAsWritten(detailed: seq<Recipe>, index: nat): (recipe: Recipe)
    requires index < |detailed|
    ensures recipe in detailed
  {
    detailed[index]
  }

  /** The read is not guarded: three candidates, the middle detail call
      fails, and the third button selects position 2 of a two-element list. */
  lemma ThirdButtonOverrunsShortList()
    ensures var candidates := [Candidate(1, "a"), Candidate(2, "b"), Candidate(3, "c")];
      var fetch := (id: int) =>
        if id == 2 then DetailResponse(404, None) else DetailResponse(200, Some(Recipe(id, "r", None, None, None)));
      |Survivors(candidates, fetch)| == 2 && ButtonIndex(Three) >= |Survivors(candidates, fetch)|
  {
  }

  /** The selection the navigation evidently intends: the chosen position
      when it exists, otherwise the last recipe that survived. */
  function SelectedRecipe(detailed: seq<Recipe>, index: nat): (recipe: Recipe)
    requires detailed != []
    ensures recipe in detailed
    ensures index < |detailed| ==> recipe == SelectAsWritten(detailed, index)
  {
    if index < |detailed| then detailed[index] else detailed[|detailed| - 1]
  }

  /** What the run renders: app.py shows the one selected recipe, 1st.py
      every survivor in order; nothing is rendered outside `Detailed`. The
      index is the session's, which only the buttons set (`Navigation.Valid`). */
  function Rendered(frontend: Frontend, run: Run, index: nat): (cards: seq<Card>)
    requires index <= 2
    ensures cards == [] <==> !run.outcome.Detailed? || run.outcome.recipes == []
    ensures frontend == App ==> |cards| <= 1
    ensures frontend == App && cards != [] ==> cards[0] == CardOf(SelectedRecipe(run.outcome.recipes, index))
    ensures frontend == First && run.outcome.Detailed? ==> cards == Cards(run.outcome.recipes)
  {
    match run.outcome
    case Detailed(recipes) =>
      if recipes == [] then []
      else if frontend == App then [CardOf(SelectedRecipe(recipes, index))]
      else Cards(recipes)
    case _ => []
  }
}

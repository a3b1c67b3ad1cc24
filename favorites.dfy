/** `save_favorite_recipe`: add-if-absent over the favourites file, keyed by
    recipe id. The file is an in-memory value (None while it does not exist)
    and a counter of the times it was rewritten stands in for the JSON flush. */
module Favorites {
  import opened Payloads

  predicate UniqueIds(favorites: seq<Recipe>)
  {
    forall i, j :: 0 <= i < j < |favorites| ==> favorites[i].id != favorites[j].id
  }

  /** The number of entries carrying the given id. */
  function CountId(favorites: seq<Recipe>, id: int): nat
  {
    if favorites == [] then 0
    else (if favorites[0].id == id then 1 else 0) + CountId(favorites[1..], id)
  }

  /** The decision and the list that results: the recipe is appended exactly
      when its id is not yet present. */
  function AddIfAbsent(favorites: seq<Recipe>, recipe: Recipe): (result: (bool, seq<Recipe>))
    ensures result.0 <==> forall k :: 0 <= k < |favorites| ==> favorites[k].id != recipe.id
    ensures result.1 == if result.0 then favorites + [recipe] else favorites
  {
    var added := recipe.id !in Ids(favorites, RecipeId);
    (added, if added then favorites + [recipe] else favorites)
  }

  /** Entries never move or vanish, and an id-unique list stays id-unique. */
  lemma AddKeepsPrefixAndUniqueness(favorites: seq<Recipe>, recipe: Recipe)
    ensures var after := AddIfAbsent(favorites, recipe).1;
      |favorites| <= |after| <= |favorites| + 1 && after[..|favorites|] == favorites &&
      (UniqueIds(favorites) ==> UniqueIds(after))
  {
  }

  /** After an add the id is present: appended at the end when it was new. */
  lemma AddMakesPresent(favorites: seq<Recipe>, recipe: Recipe)
    ensures recipe.id in Ids(AddIfAbsent(favorites, recipe).1, RecipeId)
  {
    var (added, after) := AddIfAbsent(favorites, recipe);
    if added {
      assert Ids(after, RecipeId)[|favorites|] == recipe.id;
    } else {
      var k :| 0 <= k < |favorites| && favorites[k].id == recipe.id;
      assert Ids(after, RecipeId)[k] == recipe.id;
    }
  }

  lemma {:induction false} CountIdAppend(favorites: seq<Recipe>, recipe: Recipe, id: int)
    ensures CountId(favorites + [recipe], id) == CountId(favorites, id) + (if recipe.id == id then 1 else 0)
  {
    if favorites == [] {
      assert [recipe][1..] == [];
    } else {
      assert (favorites + [recipe])[1..] == favorites[1..] + [recipe];
      CountIdAppend(favorites[1..], recipe, id);
    }
  }

  lemma {:induction false} CountIdAbsent(favorites: seq<Recipe>, id: int)
    requires forall k :: 0 <= k < |favorites| ==> favorites[k].id != id
    ensures CountId(favorites, id) == 0
  {
    if favorites != [] {
      assert forall k :: 1 <= k < |favorites| ==> favorites[k] == favorites[1..][k - 1];
      CountIdAbsent(favorites[1..], id);
    }
  }

  /** Saving the same recipe twice into a list without its id: the first save
      adds, the second reports it present, and exactly one entry carries the id. */
  lemma SaveTwice(favorites: seq<Recipe>, recipe: Recipe)
    requires recipe.id !in Ids(favorites, RecipeId)
    ensures var (first, once) := AddIfAbsent(favorites, recipe);
      var (second, twice) := AddIfAbsent(once, recipe);
      first && !second && twice == once && CountId(twice, recipe.id) == 1
  {
    var once := AddIfAbsent(favorites, recipe).1;
    AddMakesPresent(favorites, recipe);
    CountIdAbsent(favorites, recipe.id);
    CountIdAppend(favorites, recipe, recipe.id);
  }

  /** The favourites file and the number of times it has been written. */
  class FavoritesFile {
    var stored: Option<seq<Recipe>>
    var writes: nat

    /** What `json.load` yields, or [] when the file does not exist. */
    function Contents(): seq<Recipe>
      reads this
    {
      match stored
      case Some(favorites) => favorites
      case None => []
    }

    constructor (initial: Option<seq<Recipe>>)
      ensures stored == initial && writes == 0
    {
      stored := initial;
      writes := 0;
    }

    /** Load, test the id, and on a new id append and flush once. */
    method Save(recipe: Recipe) returns (added: bool)
      modifies this
      ensures (added, Contents()) == AddIfAbsent(old(Contents()), recipe)
      ensures added ==> stored == Some(Contents()) && writes == old(writes) + 1
      ensures !added ==> stored == old(stored) && writes == old(writes)
    {
      var favorites := Contents();
      if recipe.id !in Ids(favorites, RecipeId) {
        favorites := favorites + [recipe];
        stored := Some(favorites);
        writes := writes + 1;
        return true;
      }
      return false;
    }
  }
}

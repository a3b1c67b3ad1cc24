/** `get_recipe_information` and the fan-out loop that turns the finder's
    candidates into the list of detailed recipes. */
module Details {
  import opened Payloads

  /** `get_recipe_information` on a given answer: the payload on status 200,
      None otherwise. A falsy payload is None either way. */
  function RecipeInformation(resp: DetailResponse): (payload: Option<Recipe>)
    ensures payload.Some? <==> resp.status == 200 && resp.body.Some?
    ensures payload.Some? ==> resp.body == payload
  {
    if resp.status == 200 then resp.body else None
  }

  /** What the detail call yields for one candidate. */
  function Fetched(c: Candidate, fetch: int -> DetailResponse): Option<Recipe>
  {
    RecipeInformation(fetch(c.id))
  }

  /** The detailed recipes that survive the fan-out: the successful payloads,
      in candidate order. */
  function Survivors(candidates: seq<Candidate>, fetch: int -> DetailResponse): (detailed: seq<Recipe>)
    ensures |detailed| <= |candidates|
  {
    if candidates == [] then []
    else
      var rest := Survivors(candidates[1..], fetch);
      match Fetched(candidates[0], fetch)
      case Some(r) => [r] + rest
      case None => rest
  }

  /** A recipe survives exactly when some candidate's detail call yields it. */
  lemma {:induction false} SurvivorsMembers(candidates: seq<Candidate>, fetch: int -> DetailResponse)
    ensures forall r :: r in Survivors(candidates, fetch) <==>
      exists k :: 0 <= k < |candidates| && Fetched(candidates[k], fetch) == Some(r)
  {
    if candidates != [] {
      assert forall k :: 1 <= k < |candidates| ==> candidates[k] == candidates[1..][k - 1];
      SurvivorsMembers(candidates[1..], fetch);
    }
  }

  /** Fan-out never reorders: the survivors of a concatenation are the
      survivors of each part, in order. */
  lemma {:induction false} SurvivorsAppend(a: seq<Candidate>, b: seq<Candidate>, fetch: int -> DetailResponse)
    ensures Survivors(a + b, fetch) == Survivors(a, fetch) + Survivors(b, fetch)
  {
    if a == [] {
      assert a + b == b;
    } else {
      assert (a + b)[1..] == a[1..] + b;
      SurvivorsAppend(a[1..], b, fetch);
    }
  }

  /** Nothing survives exactly when every detail call fails. */
  lemma {:induction false} SurvivorsEmpty(candidates: seq<Candidate>, fetch: int -> DetailResponse)
    ensures Survivors(candidates, fetch) == [] <==>
      forall k :: 0 <= k < |candidates| ==> Fetched(candidates[k], fetch).None?
  {
    if candidates != [] {
      assert forall k :: 1 <= k < |candidates| ==> candidates[k] == candidates[1..][k - 1];
      SurvivorsEmpty(candidates[1..], fetch);
    }
  }

  /** When every detail call succeeds, the survivors are all payloads, one per
      candidate and at the candidate's own position. */
  lemma {:induction false} SurvivorsAllSucceed(candidates: seq<Candidate>, fetch: int -> DetailResponse)
    requires forall k :: 0 <= k < |candidates| ==> Fetched(candidates[k], fetch).Some?
    ensures |Survivors(candidates, fetch)| == |candidates|
    ensures forall k :: 0 <= k < |candidates| ==>
      Some(Survivors(candidates, fetch)[k]) == Fetched(candidates[k], fetch)
  {
    if candidates != [] {
      assert forall k :: 1 <= k < |candidates| ==> candidates[k] == candidates[1..][k - 1];
      SurvivorsAllSucceed(candidates[1..], fetch);
    }
  }

  /** The survivors around one position: those before it, its own, those after it. */
  lemma SurvivorsSplitAt(candidates: seq<Candidate>, fetch: int -> DetailResponse, at: nat)
    requires at < |candidates|
    ensures Survivors(candidates, fetch)
      == Survivors(candidates[..at], fetch) + Survivors([candidates[at]], fetch) + Survivors(candidates[at + 1..], fetch)
  {
    var before, single, after := candidates[..at], [candidates[at]], candidates[at + 1..];
    assert candidates[..at + 1] == before + single;
    assert candidates == candidates[..at + 1] + after;
    SurvivorsAppend(candidates[..at + 1], after, fetch);
    SurvivorsAppend(before, single, fetch);
  }

  /** One failing detail call among candidates that otherwise succeed drops
      exactly that candidate and keeps the others in finder order. */
  lemma SingleFailureDropsOnlyIt(candidates: seq<Candidate>, fetch: int -> DetailResponse, bad: nat)
    requires bad < |candidates|
    requires Fetched(candidates[bad], fetch).None?
    requires forall k :: 0 <= k < |candidates| && k != bad ==> Fetched(candidates[k], fetch).Some?
    ensures Survivors(candidates, fetch)
      == Survivors(candidates[..bad], fetch) + Survivors(candidates[bad + 1..], fetch)
    ensures |Survivors(candidates, fetch)| == |candidates| - 1
    ensures forall k :: 0 <= k < |candidates| && k != bad ==>
      Some(Survivors(candidates, fetch)[if k < bad then k else k - 1]) == Fetched(candidates[k], fetch)
  {
    assert Survivors([candidates[bad]], fetch) == [] by {
      assert [candidates[bad]][1..] == [];
    }
    SurvivorsSplitAt(candidates, fetch, bad);
    var before, after := candidates[..bad], candidates[bad + 1..];
    assert forall k :: 0 <= k < |before| ==> before[k] == candidates[k];
    SurvivorsAllSucceed(before, fetch);
    assert forall k :: 0 <= k < |after| ==> after[k] == candidates[bad + 1 + k];
    SurvivorsAllSucceed(after, fetch);
    var survivors := Survivors(candidates, fetch);
    assert survivors == Survivors(before, fetch) + Survivors(after, fetch);
    forall k | 0 <= k < |candidates| && k != bad
      ensures Some(survivors[if k < bad then k else k - 1]) == Fetched(candidates[k], fetch)
    {
      if k < bad {
        assert survivors[k] == Survivors(before, fetch)[k];
      } else {
        assert survivors[k - 1] == Survivors(after, fetch)[k - 1 - bad];
        assert after[k - 1 - bad] == candidates[k];
      }
    }
  }

  /** The loop of app.py that builds `detailed_recipes`: one detail request per
      candidate, in finder order, keeping the truthy payloads. */
  method FetchDetails(candidates: seq<Candidate>, fetch: int -> DetailResponse)
    returns (detailed: seq<Recipe>, requested: seq<int>)
    ensures detailed == Survivors(candidates, fetch)
    ensures requested == Ids(candidates, CandidateId)
  {
    detailed, requested := [], [];
    for i := 0 to |candidates|
      invariant detailed == Survivors(candidates[..i], fetch)
      invariant requested == Ids(candidates[..i], CandidateId)
    {
      var recipe := RecipeInformation(fetch(candidates[i].id));
      requested := requested + [candidates[i].id];
      if recipe.Some? {
        detailed := detailed + [recipe.value];
      }
      assert candidates[..i + 1] == candidates[..i] + [candidates[i]];
      assert [candidates[i]][1..] == [];
      SurvivorsAppend(candidates[..i], [candidates[i]], fetch);
    }
    assert candidates[..|candidates|] == candidates;
  }
}

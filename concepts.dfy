/** The concept filter of `clarifai_predict`: the recogniser's answer is cut
    down to the names of the concepts it is confident about. */
module Concepts {
  import opened Payloads

  /** Fixed acceptance threshold; a concept exactly at it is rejected. */
  const THRESHOLD: real := 0.85

  predicate Accepted(c: Concept)
  {
    c.value > THRESHOLD
  }

  /** The list comprehension `[c['name'] for c in concepts if c['value'] > 0.85]`. */
  function AcceptedNames(concepts: seq<Concept>): (names: seq<string>)
    ensures |names| <= |concepts|
    ensures forall n :: n in names <==>
      exists k :: 0 <= k < |concepts| && Accepted(concepts[k]) && concepts[k].name == n
    ensures names == [] <==> forall k :: 0 <= k < |concepts| ==> !Accepted(concepts[k])
  {
    if concepts == [] then []
    else
      var rest := AcceptedNames(concepts[1..]);
      assert forall k :: 1 <= k < |concepts| ==> concepts[k] == concepts[1..][k - 1];
      (if Accepted(concepts[0]) then [concepts[0].name] else []) + rest
  }

  /** Filtering distributes over concatenation: response order and duplicate
      names survive exactly as the recogniser sent them. */
  lemma {:induction false} AcceptedNamesAppend(a: seq<Concept>, b: seq<Concept>)
    ensures AcceptedNames(a + b) == AcceptedNames(a) + AcceptedNames(b)
  {
    if a == [] {
      assert a + b == b;
    } else {
      assert (a + b)[1..] == a[1..] + b;
      AcceptedNamesAppend(a[1..], b);
    }
  }

  /** The boundary: a single concept is kept exactly when its value is strictly above 0.85. */
  lemma SingleConcept(c: Concept)
    ensures AcceptedNames([c]) == (if c.value > 85.0 / 100.0 then [c.name] else [])
  {
  }

  /** Every accepted concept keeps its name at its own place in the output:
      names contributed by the prefix before it, then its name, then the rest. */
  lemma {:induction false} AcceptedNamesAt(concepts: seq<Concept>, k: nat)
    requires k < |concepts| && Accepted(concepts[k])
    ensures AcceptedNames(concepts)
      == AcceptedNames(concepts[..k]) + [concepts[k].name] + AcceptedNames(concepts[k + 1..])
  {
    assert concepts == concepts[..k] + [concepts[k]] + concepts[k + 1..];
    AcceptedNamesAppend(concepts[..k] + [concepts[k]], concepts[k + 1..]);
    AcceptedNamesAppend(concepts[..k], [concepts[k]]);
    SingleConcept(concepts[k]);
  }

  /** `clarifai_predict` on a given response: a non-200 status gives [],
      a missing `concepts` key gives [], otherwise the filtered names. */
  function Recognize(resp: RecognizerResponse): (names: seq<string>)
    ensures resp.status != 200 ==> names == []
    ensures resp.concepts.None? ==> names == []
    ensures forall n :: n in names ==>
      resp.status == 200 && resp.concepts.Some? &&
      exists k :: 0 <= k < |resp.concepts.value| && Accepted(resp.concepts.value[k]) && resp.concepts.value[k].name == n
    ensures resp.status == 200 && resp.concepts.Some? ==>
      forall k :: 0 <= k < |resp.concepts.value| && Accepted(resp.concepts.value[k]) ==> resp.concepts.value[k].name in names
  {
    if resp.status != 200 then []
    else
      match resp.concepts
      case None => []
      case Some(concepts) => AcceptedNames(concepts)
  }

  /** A failing recogniser and a healthy one that is confident about nothing
      produce the same list, so the caller cannot tell them apart. */
  lemma FailureIndistinguishable(failed: RecognizerResponse, quiet: RecognizerResponse)
    requires failed.status != 200
    requires quiet.status == 200 && quiet.concepts.Some?
    requires forall k :: 0 <= k < |quiet.concepts.value| ==> quiet.concepts.value[k].value <= 0.85
    ensures Recognize(failed) == Recognize(quiet) == []
  {
  }
}

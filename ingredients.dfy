/** The ingredient-description fallback chain
    `ing.get('originalString') or ing.get('original') or ing.get('name') or <default>`,
    with its two defaults: one for the exported document, one for the screen. */
module Ingredients {
  import opened Payloads

  const EXPORT_DEFAULT: string := "Ingredient details missing"
  const DISPLAY_DEFAULT: string := "Unknown ingredient"

  /** Python's `a or b or ... or default` over optional strings: the first
      truthy field, else the default. */
  function FirstTruthy(fields: seq<Option<string>>, default: string): (desc: string)
    ensures (exists k :: 0 <= k < |fields| && Truthy(fields[k])) ==>
      exists k :: 0 <= k < |fields| && Truthy(fields[k]) && desc == fields[k].value &&
        forall j :: 0 <= j < k ==> !Truthy(fields[j])
    ensures (forall k :: 0 <= k < |fields| ==> !Truthy(fields[k])) ==> desc == default
  {
    if fields == [] then default
    else if Truthy(fields[0]) then fields[0].value
    else
      assert forall k :: 1 <= k < |fields| ==> fields[k] == fields[1..][k - 1];
      FirstTruthy(fields[1..], default)
  }

  /** The three keys, in the order the source tries them. */
  function Fields(ing: Ingredient): seq<Option<string>>
  {
    [ing.originalString, ing.original, ing.name]
  }

  predicate HasDescription(ing: Ingredient)
  {
    Truthy(ing.originalString) || Truthy(ing.original) || Truthy(ing.name)
  }

  /** The description written into the exported document. */
  function ExportDescription(ing: Ingredient): (desc: string)
    ensures desc != ""
  {
    FirstTruthy(Fields(ing), EXPORT_DEFAULT)
  }

  /** The description shown on screen. */
  function DisplayDescription(ing: Ingredient): (desc: string)
    ensures desc != ""
  {
    FirstTruthy(Fields(ing), DISPLAY_DEFAULT)
  }

  /** The chain picks the first non-empty field in the order originalString,
      original, name; an empty string counts as missing. */
  lemma DescriptionPriority(ing: Ingredient, default: string)
    ensures Truthy(ing.originalString) ==> FirstTruthy(Fields(ing), default) == ing.originalString.value
    ensures !Truthy(ing.originalString) && Truthy(ing.original) ==>
      FirstTruthy(Fields(ing), default) == ing.original.value
    ensures !Truthy(ing.originalString) && !Truthy(ing.original) && Truthy(ing.name) ==>
      FirstTruthy(Fields(ing), default) == ing.name.value
    ensures !HasDescription(ing) ==> FirstTruthy(Fields(ing), default) == default
  {
    var fields := Fields(ing);
    assert fields[0] == ing.originalString && fields[1] == ing.original && fields[2] == ing.name;
  }

  /** The two front-end texts differ exactly when the ingredient has no usable field. */
  lemma ExportDisplayAgree(ing: Ingredient)
    ensures ExportDescription(ing) == DisplayDescription(ing) <==> HasDescription(ing)
  {
    DescriptionPriority(ing, EXPORT_DEFAULT);
    DescriptionPriority(ing, DISPLAY_DEFAULT);
  }
}

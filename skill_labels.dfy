/** `getSkillLabel`: the display label of a skill id, found by a
    first-match search of the skill catalog, with the id itself as the
    fallback. The catalog is a parameter. */
module SkillLabels {
  import opened JsValues

  datatype SkillOption = SkillOption(value: string, labelText: string)

  /** `catalog.find(skill => skill.value === id)`, as the position found. */
  function FirstMatch(catalog: seq<SkillOption>, id: string): (r: Option<nat>)
    ensures r.Some? ==> r.value < |catalog| && catalog[r.value].value == id
    ensures r.Some? ==> forall j | 0 <= j < r.value :: catalog[j].value != id
    ensures r.None? <==> forall j | 0 <= j < |catalog| :: catalog[j].value != id
  {
    if catalog == [] then None
    else if catalog[0].value == id then Some(0)
    else match FirstMatch(catalog[1..], id)
      case None => None
      case Some(k) => Some(k + 1)
  }

  /** `find(..)?.label || id`: an empty label is falsy and falls back too. */
  function GetSkillLabel(catalog: seq<SkillOption>, id: string): (l: string)
    ensures FirstMatch(catalog, id).None? ==> l == id
    ensures l != id ==> exists j | 0 <= j < |catalog| :: catalog[j].value == id && catalog[j].labelText == l
  {
    match FirstMatch(catalog, id)
    case Some(k) => if catalog[k].labelText != "" then catalog[k].labelText else id
    case None => id
  }

  /** The label is that of the first entry whose value is the id, when it
      is non-empty; otherwise it is the id. */
  lemma LabelOfFirstMatch(catalog: seq<SkillOption>, id: string, i: nat)
    requires i < |catalog| && catalog[i].value == id
    requires forall j | 0 <= j < i :: catalog[j].value != id
    ensures GetSkillLabel(catalog, id) == if catalog[i].labelText != "" then catalog[i].labelText else id
  {
    var k := FirstMatch(catalog, id).value;
    assert !(k < i) && !(i < k);
  }

  /** An id no entry carries is its own label. */
  lemma UnknownIdIsOwnLabel(catalog: seq<SkillOption>, id: string)
    requires forall j | 0 <= j < |catalog| :: catalog[j].value != id
    ensures GetSkillLabel(catalog, id) == id
  {
  }

  /** The label is always either the id or the non-empty label of an entry
      carrying the id; it is never empty unless the id is. */
  lemma LabelSource(catalog: seq<SkillOption>, id: string)
    ensures var l := GetSkillLabel(catalog, id);
      l == id || exists j | 0 <= j < |catalog| :: catalog[j].value == id && catalog[j].labelText == l && l != ""
    ensures GetSkillLabel(catalog, id) == "" ==> id == ""
  {
  }

  /** With duplicate values, an entry placed in front shadows every later
      one. */
  lemma {:induction false} FrontEntryWins(o: SkillOption, catalog: seq<SkillOption>)
    ensures GetSkillLabel([o] + catalog, o.value) == if o.labelText != "" then o.labelText else o.value
  {
    LabelOfFirstMatch([o] + catalog, o.value, 0);
  }
}

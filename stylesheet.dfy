/** The style sheet registry, as far as ComponentStyle uses it: the order in
    which component ids were registered, and the compiled CSS stored under
    (component id, generated name). */
module StyleSheetModel {

  /** A registry key: (component id, generated name). */
  type RuleKey = (string, string)

  class StyleSheet {
    /** Component ids in registration order; CSS is emitted in this order. */
    var ids: seq<string>
    /** Compiled CSS text by (component id, name). */
    var rules: map<RuleKey, string>

    /** Each id is registered at most once. */
    ghost predicate Valid()
      reads this
    {
      forall i, j :: 0 <= i < j < |ids| ==> ids[i] != ids[j]
    }

    constructor ()
      ensures Valid()
      ensures ids == [] && rules == map[]
    {
      ids := [];
      rules := map[];
    }

    /** Records `id` at the end of the registration order unless it is already there. */
    method RegisterId(id: string)
      requires Valid()
      modifies this`ids
      ensures Valid()
      ensures id in ids
      ensures old(id in ids) ==> ids == old(ids)
      ensures old(id !in ids) ==> ids == old(ids) + [id]
    {
      if id !in ids {
        ids := ids + [id];
      }
    }

    /** Whether CSS is stored under (id, name). */
    predicate HasNameForId(id: string, name: string)
      reads this
    {
      (id, name) in rules
    }

    /** Stores `css` under (id, name); callers check HasNameForId first. */
    method InsertRules(id: string, name: string, css: string)
      modifies this`rules
      ensures rules == old(rules)[(id, name) := css]
      ensures HasNameForId(id, name) && rules[(id, name)] == css
    {
      rules := rules[(id, name) := css];
    }
  }
}

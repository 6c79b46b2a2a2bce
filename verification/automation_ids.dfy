/** Automation identifiers: the trace commands carry the bare item id, while
    users and formatted traces use the entity id "automation.<item id>". */
module AutomationIds {
  import opened Text

  const Prefix := "automation."
  const Domain := "automation"

  /** `automation_id.replace("automation.", "")`. */
  function ItemId(automationId: string): string {
    RemoveAll(automationId, Prefix)
  }

  /** An id that never mentions the prefix is already an item id. */
  lemma ItemIdOfBareId(x: string)
    requires !Contains(x, Prefix)
    ensures ItemId(x) == x
  {
    RemoveAllAbsent(x, Prefix);
  }

  /** The entity id of an automation maps to its item id. */
  lemma ItemIdStripsPrefix(x: string)
    requires !Contains(x, Prefix)
    ensures ItemId(Prefix + x) == x
  {
    RemoveAllLeading(Prefix, x);
  }
}

/** Fields of the entity state objects returned by /api/states. */
module States {
  import opened Options
  import opened Json

  /** `e["entity_id"]` used as a string; None when Python would raise. */
  function EntityId(e: Value): Option<string> {
    match Index(e, "entity_id")
    case Some(Str(id)) => Some(id)
    case _ => None
  }

  /** `e.get("attributes", {})`. */
  function Attributes(e: Value): Value { Nested(e, "attributes") }

  /** `e.get("attributes", {}).get("friendly_name", "")` used as a string;
      None when Python would raise. */
  function FriendlyName(e: Value): Option<string> {
    match Lookup(Attributes(e), "friendly_name", Str(""))
    case Some(Str(name)) => Some(name)
    case _ => None
  }
}

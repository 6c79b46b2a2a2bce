/** ha_get_automations.py: the automation entities, optionally those whose
    id or friendly name contains a search term. */
module Automations {
  import opened Options
  import opened Json
  import opened Outcomes
  import opened Text
  import opened Seqs
  import opened States
  import AutomationIds

  predicate IsAutomation(e: Value) {
    EntityId(e).Some? && StartsWith(EntityId(e).value, AutomationIds.Prefix)
  }

  /** The lowercased term occurs in the lowercased id, or else in the
      lowercased friendly name. */
  predicate Mentions(a: Value, term: string) {
    EntityId(a).Some?
    && (Contains(Lower(EntityId(a).value), term)
        || (FriendlyName(a).Some? && Contains(Lower(FriendlyName(a).value), term)))
  }

  /** The search cannot raise on `a`: its id is a string, and its friendly
      name is one too unless the id already matched (the `or` short-circuits). */
  predicate Searchable(a: Value, term: string) {
    EntityId(a).Some? && (Contains(Lower(EntityId(a).value), term) || FriendlyName(a).Some?)
  }

  function AutomationStep(e: Value): Step<Value> {
    match EntityId(e)
    case None => Raise
    case Some(id) => if StartsWith(id, AutomationIds.Prefix) then Emit(e) else Skip
  }

  function SearchStep(term: string, a: Value): Step<Value> {
    match EntityId(a)
    case None => Raise
    case Some(id) =>
      if Contains(Lower(id), term) then Emit(a)
      else match FriendlyName(a)
        case None => Raise
        case Some(name) => if Contains(Lower(name), term) then Emit(a) else Skip
  }

  /** get_automations after the response is decoded. */
  function GetAutomations(entities: seq<Value>, searchTerm: Option<string>): (r: Result<seq<Value>>)
    ensures r.Fail? ==> r == Fail(Malformed)
    ensures r.Ok? ==> forall i | 0 <= i < |entities| :: EntityId(entities[i]).Some?
    ensures r.Ok? ==> IsSubseq(r.value, entities) && forall a | a in r.value :: IsAutomation(a)
    ensures !Given(searchTerm) ==>
      (r.Ok? <==> forall i | 0 <= i < |entities| :: EntityId(entities[i]).Some?)
      && (r.Ok? ==> r.value == Filter(entities, IsAutomation))
    ensures Given(searchTerm) ==>
      (r.Ok? <==>
        (forall i | 0 <= i < |entities| :: EntityId(entities[i]).Some?)
        && forall a | a in Filter(entities, IsAutomation) :: Searchable(a, Lower(searchTerm.value)))
    ensures Given(searchTerm) && r.Ok? ==>
      r.value == Filter(Filter(entities, IsAutomation), a => Mentions(a, Lower(searchTerm.value)))
  {
    CollectIsFilter(entities, AutomationStep, IsAutomation);
    match Collect(entities, AutomationStep)
    case None => Fail(Malformed)
    case Some(automations) =>
      if !Given(searchTerm) then Ok(automations)
      else
        var term := Lower(searchTerm.value);
        CollectIsFilter(automations, a => SearchStep(term, a), a => Mentions(a, term));
        IsSubseqTransitive(Filter(automations, a => Mentions(a, term)), automations, entities);
        assert forall a | a in automations :: SearchStep(term, a).Raise? <==> !Searchable(a, term);
        match Collect(automations, a => SearchStep(term, a))
        case None => Fail(Malformed)
        case Some(found) => Ok(found)
  }

  /** A search keeps, in order, the automations that mention the term: one
      filter over the entities with both tests. */
  lemma SearchIsOneFilter(entities: seq<Value>, searchTerm: Option<string>)
    requires Given(searchTerm) && GetAutomations(entities, searchTerm).Ok?
    ensures GetAutomations(entities, searchTerm).value
      == Filter(entities, a => IsAutomation(a) && Mentions(a, Lower(searchTerm.value)))
  {
    var term := Lower(searchTerm.value);
    FilterFilter(entities, IsAutomation, a => Mentions(a, term), a => IsAutomation(a) && Mentions(a, term));
  }

  /** Terms that differ only in ASCII case find the same automations. */
  lemma SearchIgnoresCase(entities: seq<Value>, term1: string, term2: string)
    requires Lower(term1) == Lower(term2)
    ensures GetAutomations(entities, Some(term1)) == GetAutomations(entities, Some(term2))
    ensures GetAutomations(entities, Some(term1)) == GetAutomations(entities, Some(Lower(term1)))
  {
    LowerIdempotent(term1);
  }
}

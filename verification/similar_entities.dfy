/** ha_search_similar_entities.py: entities whose id or friendly name
    contains a pattern, reshaped for building automations. */
module SimilarEntities {
  import opened Json
  import opened Outcomes
  import opened Text
  import opened Seqs
  import opened States

  datatype EntityMatch = EntityMatch(
    entityId: string,
    friendlyName: string,
    state: Value,
    domain: string,
    attributes: Value)

  /** The lowercased pattern occurs in the lowercased id or friendly name. */
  predicate Matches(e: Value, needle: string) {
    EntityId(e).Some? && FriendlyName(e).Some?
    && (Contains(Lower(EntityId(e).value), needle) || Contains(Lower(FriendlyName(e).value), needle))
  }

  /** The loop body cannot raise on `e`: id and friendly name are strings,
      and a matching entity has a state. */
  predicate Searchable(e: Value, needle: string) {
    EntityId(e).Some? && FriendlyName(e).Some? && (Matches(e, needle) ==> Index(e, "state").Some?)
  }

  /** The record built for a matching entity: id and state as given, the
      domain is the id up to its first dot, attributes default to {}. */
  function Project(e: Value): EntityMatch {
    var id := if EntityId(e).Some? then EntityId(e).value else "";
    EntityMatch(
      id,
      if FriendlyName(e).Some? then FriendlyName(e).value else "",
      Attr(e, "state"),
      BeforeFirst(id, '.'),
      Attributes(e))
  }

  function SearchStep(needle: string, e: Value): Step<EntityMatch> {
    match EntityId(e)
    case None => Raise
    case Some(id) =>
      match FriendlyName(e)
      case None => Raise
      case Some(name) =>
        if Contains(Lower(id), needle) || Contains(Lower(name), needle) then
          match Index(e, "state")
          case None => Raise
          case Some(state) => Emit(EntityMatch(id, name, state, BeforeFirst(id, '.'), Attributes(e)))
        else Skip
  }

  /** search_entities after the response is decoded. */
  function SearchEntities(pattern: string, entities: seq<Value>): (r: Result<seq<EntityMatch>>)
    ensures r.Fail? ==> r == Fail(Malformed)
    ensures r.Ok? <==> forall i | 0 <= i < |entities| :: Searchable(entities[i], Lower(pattern))
    ensures r.Ok? ==> r.value == Map(Filter(entities, e => Matches(e, Lower(pattern))), Project)
  {
    var needle := Lower(pattern);
    CollectIsFilterMap(entities, e => SearchStep(needle, e), e => Matches(e, needle), Project);
    match Collect(entities, e => SearchStep(needle, e))
    case None => Fail(Malformed)
    case Some(found) => Ok(found)
  }

  /** Every record names a matching entity and carries its domain. */
  lemma RecordsMatch(pattern: string, entities: seq<Value>)
    requires SearchEntities(pattern, entities).Ok?
    ensures forall m | m in SearchEntities(pattern, entities).value ::
      && m.domain == BeforeFirst(m.entityId, '.')
      && (Contains(Lower(m.entityId), Lower(pattern)) || Contains(Lower(m.friendlyName), Lower(pattern)))
  {
    var kept := Filter(entities, e => Matches(e, Lower(pattern)));
    var r := SearchEntities(pattern, entities).value;
    forall m | m in r
      ensures m.domain == BeforeFirst(m.entityId, '.')
      ensures Contains(Lower(m.entityId), Lower(pattern)) || Contains(Lower(m.friendlyName), Lower(pattern))
    {
      var i :| 0 <= i < |r| && r[i] == m;
      assert m == Project(kept[i]);
      assert kept[i] in kept;
    }
  }

  /** The empty pattern matches every entity. */
  lemma EmptyPatternMatchesAll(entities: seq<Value>)
    requires SearchEntities("", entities).Ok?
    ensures |SearchEntities("", entities).value| == |entities|
  {
    forall e | e in entities
      ensures Matches(e, "")
    {
      var i :| 0 <= i < |entities| && entities[i] == e;
      ContainsEmpty(Lower(EntityId(e).value));
    }
    FilterAll(entities, e => Matches(e, ""));
  }

  /** The domain is the text before the first dot, or the whole id. */
  lemma DomainExamples()
    ensures BeforeFirst("light.kitchen", '.') == "light"
    ensures BeforeFirst("sun", '.') == "sun"
  {
    assert "light.kitchen" == "light" + ['.'] + "kitchen";
    BeforeFirstSplits("light", '.', "kitchen");
    BeforeFirstSplits("sun", '.', "");
  }

  /** A matching light's record carries its domain and state. */
  lemma ProjectExample()
    ensures Project(Obj(map["entity_id" := Str("light.kitchen"), "state" := Str("on")]))
      == EntityMatch("light.kitchen", "", Str("on"), "light", Obj(map[]))
  {
    DomainExamples();
  }
}

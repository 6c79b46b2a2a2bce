/** ha_get_entities.py: all entity states, or those of one domain. */
module Entities {
  import opened Options
  import opened Json
  import opened Outcomes
  import opened Text
  import opened Seqs
  import opened States

  /** The entity's id starts with "<domain>.". */
  predicate InDomain(e: Value, domain: string) {
    EntityId(e).Some? && StartsWith(EntityId(e).value, domain + ".")
  }

  function DomainStep(domain: string, e: Value): Step<Value> {
    match EntityId(e)
    case None => Raise
    case Some(id) => if StartsWith(id, domain + ".") then Emit(e) else Skip
  }

  /** get_entities after the response is decoded. */
  function GetEntities(entities: seq<Value>, domain: Option<string>): (r: Result<seq<Value>>)
    ensures r.Fail? ==> r == Fail(Malformed)
    ensures !Given(domain) ==> r == Ok(entities)
    ensures Given(domain) ==> (r.Ok? <==> forall i | 0 <= i < |entities| :: EntityId(entities[i]).Some?)
    ensures Given(domain) && r.Ok? ==>
      && r.value == Filter(entities, e => InDomain(e, domain.value))
      && IsSubseq(r.value, entities)
      && (forall e :: e in r.value <==> e in entities && InDomain(e, domain.value))
  {
    if !Given(domain) then Ok(entities)
    else
      var d := domain.value;
      CollectIsFilter(entities, e => DomainStep(d, e), e => InDomain(e, d));
      match Collect(entities, e => DomainStep(d, e))
      case None => Fail(Malformed)
      case Some(kept) => Ok(kept)
  }

  /** The prefix includes the dot: "light" selects "light.kitchen" but not
      "lights.kitchen". */
  lemma DomainNeedsDot()
    ensures InDomain(Obj(map["entity_id" := Str("light.kitchen")]), "light")
    ensures !InDomain(Obj(map["entity_id" := Str("lights.kitchen")]), "light")
  {
    var bad := "lights.kitchen";
    assert bad[..|"light."|][5] != "light."[5];
  }

  /** Filtering the result by the same domain again changes nothing. */
  lemma GetEntitiesIdempotent(entities: seq<Value>, domain: Option<string>)
    requires GetEntities(entities, domain).Ok?
    ensures GetEntities(GetEntities(entities, domain).value, domain) == GetEntities(entities, domain)
  {
    if Given(domain) {
      var d := domain.value;
      var kept := GetEntities(entities, domain).value;
      FilterIdempotent(entities, e => InDomain(e, d));
      forall i | 0 <= i < |kept|
        ensures EntityId(kept[i]).Some?
      {
        assert kept[i] in kept;
      }
    }
  }
}

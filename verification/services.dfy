/** ha_get_services.py: the service catalogue as a domain-keyed dictionary,
    optionally restricted to one domain. */
module Services {
  import opened Options
  import opened Json
  import opened Outcomes

  /** `item["domain"]` and `item["services"]` exist and the domain can key a
      dictionary. */
  predicate WellFormed(item: Value) {
    item.Obj? && "domain" in item.fields && "services" in item.fields && Hashable(item.fields["domain"])
  }

  function DomainOf(item: Value): Value { Attr(item, "domain") }
  function ServicesOf(item: Value): Value { Attr(item, "services") }

  /** Occurrence i is the last one of its domain. */
  predicate LastOfDomain(items: seq<Value>, i: int)
    requires 0 <= i < |items|
  {
    forall j | i < j < |items| :: DomainOf(items[j]) != DomainOf(items[i])
  }

  /** The dictionary comprehension: later items overwrite earlier ones. */
  function ServicesDict(items: seq<Value>): (r: Option<map<Value, Value>>)
    ensures r.Some? <==> forall i | 0 <= i < |items| :: WellFormed(items[i])
  {
    if items == [] then Some(map[])
    else
      match ServicesDict(items[..|items| - 1])
      case None => None
      case Some(m) =>
        var last := items[|items| - 1];
        if WellFormed(last) then Some(m[DomainOf(last) := ServicesOf(last)]) else None
  }

  /** The keys are exactly the domains listed. */
  lemma {:induction false} ServicesDictKeys(items: seq<Value>)
    requires ServicesDict(items).Some?
    ensures ServicesDict(items).value.Keys == set i | 0 <= i < |items| :: DomainOf(items[i])
  {
    if items != [] {
      var init := items[..|items| - 1];
      ServicesDictKeys(init);
      assert forall i | 0 <= i < |init| :: init[i] == items[i];
      var ks := set i | 0 <= i < |items| :: DomainOf(items[i]);
      var ki := set i | 0 <= i < |init| :: DomainOf(init[i]);
      assert ks == ki + {DomainOf(items[|items| - 1])};
    }
  }

  /** Each domain maps to the services of its last occurrence. */
  lemma {:induction false} ServicesDictLastWins(items: seq<Value>, i: int)
    requires ServicesDict(items).Some?
    requires 0 <= i < |items| && LastOfDomain(items, i)
    ensures DomainOf(items[i]) in ServicesDict(items).value
    ensures ServicesDict(items).value[DomainOf(items[i])] == ServicesOf(items[i])
  {
    if i < |items| - 1 {
      var init := items[..|items| - 1];
      assert init[i] == items[i];
      assert forall j | i < j < |init| :: init[j] == items[j];
      assert LastOfDomain(init, i);
      ServicesDictLastWins(init, i);
    }
  }

  /** Every domain maps to the services of its last occurrence. */
  lemma ServicesDictLastWinsAll(items: seq<Value>)
    requires ServicesDict(items).Some?
    ensures forall i | 0 <= i < |items| && LastOfDomain(items, i) ::
      DomainOf(items[i]) in ServicesDict(items).value && ServicesDict(items).value[DomainOf(items[i])] == ServicesOf(items[i])
  {
    forall i | 0 <= i < |items| && LastOfDomain(items, i)
      ensures DomainOf(items[i]) in ServicesDict(items).value && ServicesDict(items).value[DomainOf(items[i])] == ServicesOf(items[i])
    {
      ServicesDictLastWins(items, i);
    }
  }

  /** Restriction to one domain; the whole dictionary without a filter. */
  function SelectDomain(services: map<Value, Value>, domain: Option<string>): (r: map<Value, Value>)
    ensures !Given(domain) ==> r == services
    ensures Given(domain) ==> r.Keys == services.Keys * {Str(domain.value)}
    ensures forall k | k in r :: k in services && r[k] == services[k]
  {
    if !Given(domain) then services
    else if Str(domain.value) in services then map[Str(domain.value) := services[Str(domain.value)]]
    else map[]
  }

  /** get_services after the response is decoded. */
  function GetServices(items: seq<Value>, domain: Option<string>): (r: Result<map<Value, Value>>)
    ensures r.Fail? ==> r == Fail(Malformed)
    ensures r.Ok? <==> forall i | 0 <= i < |items| :: WellFormed(items[i])
    ensures r.Ok? ==> r.value.Keys <= set i | 0 <= i < |items| :: DomainOf(items[i])
    ensures r.Ok? && !Given(domain) ==> r.value.Keys == set i | 0 <= i < |items| :: DomainOf(items[i])
    ensures r.Ok? && Given(domain) ==> r.value.Keys == (set i | 0 <= i < |items| :: DomainOf(items[i])) * {Str(domain.value)}
    ensures r.Ok? ==> forall i | 0 <= i < |items| && LastOfDomain(items, i) && DomainOf(items[i]) in r.value ::
      r.value[DomainOf(items[i])] == ServicesOf(items[i])
  {
    match ServicesDict(items)
    case None => Fail(Malformed)
    case Some(m) =>
      ServicesDictKeys(items);
      ServicesDictLastWinsAll(items);
      Ok(SelectDomain(m, domain))
  }

  /** A requested domain that appears yields exactly its last services entry;
      one that does not yields the empty dictionary. */
  lemma RequestedDomain(items: seq<Value>, domain: string, i: int)
    requires domain != "" && 0 <= i < |items|
    requires forall j | 0 <= j < |items| :: WellFormed(items[j])
    requires DomainOf(items[i]) == Str(domain) && LastOfDomain(items, i)
    ensures GetServices(items, Some(domain)) == Ok(map[Str(domain) := ServicesOf(items[i])])
  {
    ServicesDictLastWins(items, i);
  }

  lemma AbsentDomain(items: seq<Value>, domain: string)
    requires domain != ""
    requires forall j | 0 <= j < |items| :: WellFormed(items[j]) && DomainOf(items[j]) != Str(domain)
    ensures GetServices(items, Some(domain)) == Ok(map[])
  {
    ServicesDictKeys(items);
  }

  /** A later entry for a domain replaces an earlier one. */
  lemma LaterEntryWins()
    ensures ServicesDict([
      Obj(map["domain" := Str("light"), "services" := Num(1)]),
      Obj(map["domain" := Str("light"), "services" := Num(2)])])
      == Some(map[Str("light") := Num(2)])
  {
    var a := Obj(map["domain" := Str("light"), "services" := Num(1)]);
    var b := Obj(map["domain" := Str("light"), "services" := Num(2)]);
    assert [a, b][..1] == [a];
    assert [a][..0] == [];
    assert ServicesDict([a]) == Some(map[Str("light") := Num(1)]);
    assert WellFormed(b) && DomainOf(b) == Str("light") && ServicesOf(b) == Num(2);
    assert ServicesDict([a, b]) == Some(map[Str("light") := Num(1)][Str("light") := Num(2)]);
    assert map[Str("light") := Num(1)][Str("light") := Num(2)] == map[Str("light") := Num(2)];
  }
}

/** ha_get_config_entries.py: integration config entries, optionally of one
    domain, reshaped into records. */
module ConfigEntries {
  import opened Options
  import opened Json
  import opened Outcomes
  import opened Seqs

  /** One printed record; absent title, state and source get defaults. */
  datatype EntryRecord = EntryRecord(configEntryId: Value, title: Value, domain: Value, state: Value, source: Value)

  /** Nothing selected is a normal outcome, not an error. */
  datatype Report = NoEntries | Entries(records: seq<EntryRecord>)

  /** `entry.get("domain") == domain`. */
  predicate OfDomain(e: Value, domain: string) {
    Attr(e, "domain") == Str(domain)
  }

  function DomainStep(domain: string, e: Value): Step<Value> {
    if !e.Obj? then Raise
    else if OfDomain(e, domain) then Emit(e)
    else Skip
  }

  /** The record for an entry, from its fields and the documented defaults. */
  function Record(e: Value): EntryRecord {
    EntryRecord(
      Attr(e, "entry_id"),
      if e.Obj? then Get(e.fields, "title", Str("Unknown")) else Null,
      Attr(e, "domain"),
      if e.Obj? then Get(e.fields, "state", Str("unknown")) else Null,
      if e.Obj? then Get(e.fields, "source", Str("unknown")) else Null)
  }

  /** The record can be built: entry_id and domain are required. */
  predicate Formattable(e: Value) {
    e.Obj? && "entry_id" in e.fields && "domain" in e.fields
  }

  function FormatStep(e: Value): Step<EntryRecord> {
    if Formattable(e) then Emit(Record(e)) else Raise
  }

  /** The entries the filter keeps (all of them without a filter). */
  function Selected(entries: seq<Value>, domainFilter: Option<string>): seq<Value> {
    if Given(domainFilter) then Filter(entries, e => OfDomain(e, domainFilter.value)) else entries
  }

  /** get_config_entries after the response is decoded. */
  function GetConfigEntries(entries: seq<Value>, domainFilter: Option<string>): (r: Result<Report>)
    ensures r.Fail? ==> r == Fail(Malformed)
    ensures Given(domainFilter) && r.Ok? ==> forall i | 0 <= i < |entries| :: entries[i].Obj?
    ensures r.Ok? ==> (r.value == NoEntries <==> Selected(entries, domainFilter) == [])
    ensures r.Ok? && r.value.Entries? ==> r.value.records == Map(Selected(entries, domainFilter), Record)
    ensures r.Ok? <==>
      (Given(domainFilter) ==> forall i | 0 <= i < |entries| :: entries[i].Obj?)
      && forall e | e in Selected(entries, domainFilter) :: Formattable(e)
  {
    var kept :=
      if Given(domainFilter) then
        var d := domainFilter.value;
        CollectIsFilter(entries, e => DomainStep(d, e), e => OfDomain(e, d));
        Collect(entries, e => DomainStep(d, e))
      else Some(entries);
    match kept
    case None => Fail(Malformed)
    case Some(selected) =>
      if selected == [] then Ok(NoEntries)
      else
        CollectIsFilterMap(selected, FormatStep, Formattable, Record);
        match Collect(selected, FormatStep)
        case None => Fail(Malformed)
        case Some(records) =>
          assert forall x | x in selected :: Formattable(x);
          FilterAll(selected, Formattable);
          Ok(Entries(records))
  }

  /** An entry with only its id and domain is printed with the defaults. */
  lemma DefaultsFillGaps()
    ensures GetConfigEntries([Obj(map["entry_id" := Str("abc"), "domain" := Str("mqtt")])], Some("mqtt"))
      == Ok(Entries([EntryRecord(Str("abc"), Str("Unknown"), Str("mqtt"), Str("unknown"), Str("unknown"))]))
  {
    var e := Obj(map["entry_id" := Str("abc"), "domain" := Str("mqtt")]);
    assert OfDomain(e, "mqtt");
    FilterAll([e], x => OfDomain(x, "mqtt"));
    assert Selected([e], Some("mqtt")) == [e];
    assert Formattable(e);
    var r := GetConfigEntries([e], Some("mqtt"));
    assert r.Ok? && r.value.Entries?;
    assert r.value.records == Map([e], Record);
    assert "title" !in e.fields && "state" !in e.fields && "source" !in e.fields;
    assert Map([e], Record) == [Record(e)];
  }

  /** A domain no entry has yields the empty report, not an error. */
  lemma UnknownDomainIsEmpty(entries: seq<Value>, domain: string)
    requires domain != ""
    requires forall i | 0 <= i < |entries| :: entries[i].Obj? && !OfDomain(entries[i], domain)
    ensures GetConfigEntries(entries, Some(domain)) == Ok(NoEntries)
  {
    FilterEmpty(entries, e => OfDomain(e, domain));
  }
}

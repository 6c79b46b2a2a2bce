/** ha_search_dashboards.py: dashboards whose id, title or url_path contains
    a pattern, and what the script shows for the matches. */
module Dashboards {
  import opened Options
  import opened Json
  import opened Outcomes
  import opened Text
  import opened Seqs

  /** `d.get(key, "")` used as a string; None when `.lower()` would raise. */
  function TextField(d: Value, key: string): Option<string> {
    match Lookup(d, key, Str(""))
    case Some(Str(s)) => Some(s)
    case _ => None
  }

  /** The search cannot raise on `d`. */
  predicate Inspectable(d: Value) {
    TextField(d, "id").Some? && TextField(d, "title").Some? && TextField(d, "url_path").Some?
  }

  /** The lowercased pattern occurs in the lowercased id, title or url_path. */
  predicate Mentions(d: Value, needle: string) {
    Inspectable(d)
    && (Contains(Lower(TextField(d, "id").value), needle)
        || Contains(Lower(TextField(d, "title").value), needle)
        || Contains(Lower(TextField(d, "url_path").value), needle))
  }

  function SearchStep(needle: string, d: Value): Step<Value> {
    if !Inspectable(d) then Raise
    else if Mentions(d, needle) then Emit(d)
    else Skip
  }

  /** get_dashboards after the response is decoded. */
  function GetDashboards(dashboards: seq<Value>, pattern: Option<string>): (r: Result<seq<Value>>)
    ensures r.Fail? ==> r == Fail(Malformed)
    ensures !Given(pattern) ==> r == Ok(dashboards)
    ensures Given(pattern) ==> (r.Ok? <==> forall i | 0 <= i < |dashboards| :: Inspectable(dashboards[i]))
    ensures Given(pattern) && r.Ok? ==>
      && r.value == Filter(dashboards, d => Mentions(d, Lower(pattern.value)))
      && IsSubseq(r.value, dashboards)
  {
    if !Given(pattern) then Ok(dashboards)
    else
      var needle := Lower(pattern.value);
      CollectIsFilter(dashboards, d => SearchStep(needle, d), d => Mentions(d, needle));
      match Collect(dashboards, d => SearchStep(needle, d))
      case None => Fail(Malformed)
      case Some(found) => Ok(found)
  }

  /** Patterns that differ only in ASCII case find the same dashboards. */
  lemma SearchIgnoresCase(dashboards: seq<Value>, p1: string, p2: string)
    requires Lower(p1) == Lower(p2)
    ensures GetDashboards(dashboards, Some(p1)) == GetDashboards(dashboards, Some(p2))
    ensures GetDashboards(dashboards, Some(p1)) == GetDashboards(dashboards, Some(Lower(p1)))
  {
    LowerIdempotent(p1);
  }

  /** What main shows: one dashboard with the url_path whose configuration it
      then fetches (when that path is truthy), or the list of several. */
  datatype View = Single(dashboard: Value, configPath: Option<Value>) | Several(dashboards: seq<Value>)

  /** main's dispatch on the matches; no match exits with an error. */
  function Present(dashboards: seq<Value>): (r: Result<View>)
    ensures dashboards == [] <==> r == Fail(NotFound)
    ensures |dashboards| == 1 ==> (r.Ok? <==> dashboards[0].Obj?)
    ensures |dashboards| == 1 && !dashboards[0].Obj? ==> r == Fail(Malformed)
    ensures r.Ok? && r.value.Single? ==>
      && dashboards == [r.value.dashboard]
      && (r.value.configPath.Some? <==> Truthy(Attr(r.value.dashboard, "url_path")))
      && (r.value.configPath.Some? ==> r.value.configPath.value == Attr(r.value.dashboard, "url_path"))
    ensures |dashboards| >= 2 <==> r.Ok? && r.value.Several?
    ensures r.Ok? && r.value.Several? ==> r.value.dashboards == dashboards
  {
    if dashboards == [] then Fail(NotFound)
    else if |dashboards| == 1 then
      var d := dashboards[0];
      if !d.Obj? then Fail(Malformed)
      else
        var path := Get(d.fields, "url_path", Null);
        Ok(Single(d, if Truthy(path) then Some(path) else None))
    else Ok(Several(dashboards))
  }

  /** The whole script on a decoded dashboard list. */
  function SearchDashboards(dashboards: seq<Value>, pattern: Option<string>): (r: Result<View>)
    ensures r.Ok? ==> GetDashboards(dashboards, pattern).Ok?
    ensures r.Ok? && r.value.Several? ==> r.value.dashboards == GetDashboards(dashboards, pattern).value
    ensures !Given(pattern) ==> r == Present(dashboards)
    ensures GetDashboards(dashboards, pattern).Ok? ==> r == Present(GetDashboards(dashboards, pattern).value)
    ensures GetDashboards(dashboards, pattern).Fail? ==> r == Fail(GetDashboards(dashboards, pattern).error)
  {
    match GetDashboards(dashboards, pattern)
    case Fail(e) => Fail(e)
    case Ok(found) => Present(found)
  }

  /** A search that matches nothing is reported as not found. */
  lemma NoMatchIsNotFound(dashboards: seq<Value>, pattern: string)
    requires pattern != ""
    requires forall i | 0 <= i < |dashboards| :: Inspectable(dashboards[i]) && !Mentions(dashboards[i], Lower(pattern))
    ensures SearchDashboards(dashboards, Some(pattern)) == Fail(NotFound)
  {
    FilterEmpty(dashboards, d => Mentions(d, Lower(pattern)));
  }
}

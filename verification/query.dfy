/** The query state (the region filter and the search text) and the pure
    derivation of the request issued whenever either changes. */
module Query {
  import opened Options
  import opened Search

  const ApiBase: string := "https://restcountries.com/v3.1"
  const Fields: string := "fields=name,flags,population,region,subregion,capital,tld,borders,languages,currencies"

  const AllPath: string := "/all"
  const RegionPrefix: string := "/region/"
  const NamePrefix: string := "/name/"

  /** The three queries the countries API is asked. */
  datatype Endpoint = AllCountries | ByRegion(region: string) | ByName(text: string)

  function PathOf(e: Endpoint): string {
    match e
    case AllCountries => AllPath
    case ByRegion(r) => RegionPrefix + r
    case ByName(t) => NamePrefix + t
  }

  predicate HasPrefix(s: string, prefix: string) {
    |prefix| <= |s| && s[..|prefix|] == prefix
  }

  /** Reads a request path back as the query it asks for. */
  function ParsePath(p: string): Option<Endpoint> {
    if p == AllPath then Some(AllCountries)
    else if HasPrefix(p, RegionPrefix) then Some(ByRegion(p[|RegionPrefix|..]))
    else if HasPrefix(p, NamePrefix) then Some(ByName(p[|NamePrefix|..]))
    else None
  }

  /** Every query's path reads back as that query. */
  lemma ParsePathOf(e: Endpoint)
    ensures ParsePath(PathOf(e)) == Some(e)
  {
    match e
    case AllCountries =>
    case ByRegion(r) =>
      assert (RegionPrefix + r)[..|RegionPrefix|] == RegionPrefix;
      assert (RegionPrefix + r)[|RegionPrefix|..] == r;
    case ByName(t) =>
      var p := NamePrefix + t;
      assert p[..|NamePrefix|] == NamePrefix;
      assert p[|NamePrefix|..] == t;
      assert p[1] == 'n';
  }

  /** Every path that reads as a query is that query's path. */
  lemma PathOfParse(p: string)
    ensures ParsePath(p).Some? ==> PathOf(ParsePath(p).value) == p
  {
    if HasPrefix(p, RegionPrefix) {
      assert p == p[..|RegionPrefix|] + p[|RegionPrefix|..];
    }
    if HasPrefix(p, NamePrefix) {
      assert p == p[..|NamePrefix|] + p[|NamePrefix|..];
    }
  }

  /** The values the region filter can hold: all regions, or one named
      region. */
  predicate ValidRegion(region: string) {
    region == AllPath || (HasPrefix(region, RegionPrefix) && |region| > |RegionPrefix|)
  }

  /** A valid region filter reads as the query for all countries or for
      one non-empty region. */
  lemma ValidRegionReads(region: string)
    requires ValidRegion(region)
    ensures ParsePath(region) == Some(AllCountries) <==> region == AllPath
    ensures region != AllPath ==>
      ParsePath(region).Some? && ParsePath(region).value.ByRegion? && ParsePath(region).value.region != ""
  {
  }

  /** A fetch: the path asked of the API, and the name filter applied to
      the answer on the client (`""` for none). */
  datatype Request = Request(path: string, nameFilter: string)

  /** `updateFilteredData`: the request for the current region filter and
      search text. A chosen region is fetched whole and the search text
      filters it on the client; otherwise the search text, when there is
      one, is sent to the API as a name query. */
  function Derive(region: string, search: string): (r: Request)
    ensures region != AllPath ==> r.path == region && r.nameFilter == search
    ensures r.nameFilter != "" ==> r.path == region != AllPath && r.nameFilter == search
    ensures search != "" ==> r.nameFilter == search || r.path == PathOf(ByName(search))
    ensures r.path == AllPath ==> search == "" && region == AllPath
  {
    if region != AllPath then Request(region, search)
    else if search != "" then Request(NamePrefix + search, "")
    else Request(AllPath, "")
  }

  /** For a valid region filter, the request asks the API for one of its
      three queries: the chosen region itself, with the search text as
      client filter, or else a name query for non-empty search text, or
      else everything. */
  lemma DeriveAsks(region: string, search: string)
    requires ValidRegion(region)
    ensures var r := Derive(region, search);
      && ParsePath(r.path).Some?
      && (ParsePath(r.path).value.ByRegion? <==> region != AllPath)
      && (region != AllPath ==> ParsePath(r.path) == ParsePath(region) && r.nameFilter == search)
      && (ParsePath(r.path) == Some(ByName(search)) <==> region == AllPath && search != "")
      && (ParsePath(r.path) == Some(AllCountries) <==> region == AllPath && search == "")
      && (!ParsePath(r.path).value.ByRegion? ==> r.nameFilter == "")
  {
    if region == AllPath && search != "" {
      ParsePathOf(ByName(search));
    }
  }

  /** What follows the path in every URL: the fixed list of fields. */
  const QueryPart: string := "?" + Fields

  /** Reads the path back out of a URL of the API: what lies between the
      API base and the field list, if the URL has both. */
  function PathOfUrl(url: string): Option<string> {
    if |ApiBase| + |QueryPart| <= |url| && url[..|ApiBase|] == ApiBase
       && url[|url| - |QueryPart|..] == QueryPart
    then Some(url[|ApiBase|..|url| - |QueryPart|])
    else None
  }

  /** The URL fetched for a request. Its path reads back as the request's
      path. */
  function Url(r: Request): (url: string)
    ensures PathOfUrl(url) == Some(r.path)
  {
    var url := ApiBase + r.path + QueryPart;
    assert url[..|ApiBase|] == ApiBase;
    assert url[|url| - |QueryPart|..] == QueryPart;
    assert url[|ApiBase|..|url| - |QueryPart|] == r.path;
    url
  }

  /** Every URL whose path can be read is the URL of the request for that
      path. */
  lemma UrlOfPath(url: string, nameFilter: string)
    ensures PathOfUrl(url).Some? ==> Url(Request(PathOfUrl(url).value, nameFilter)) == url
  {
    if PathOfUrl(url).Some? {
      var p := PathOfUrl(url).value;
      assert url == url[..|ApiBase|] + p + url[|url| - |QueryPart|..];
    }
  }

  /** The URL fetched for a valid query state asks the API for the query
      `updateFilteredData` chose: the chosen region exactly when one is chosen,
      otherwise a name query for non-empty search text, otherwise
      everything. */
  lemma UrlAsks(region: string, search: string)
    requires ValidRegion(region)
    ensures var e := ParsePath(PathOfUrl(Url(Derive(region, search))).value);
      && e.Some?
      && (e.value.ByRegion? <==> region != AllPath)
      && (region != AllPath ==> e == ParsePath(region))
      && (e == Some(ByName(search)) <==> region == AllPath && search != "")
      && (e == Some(AllCountries) <==> region == AllPath && search == "")
  {
    DeriveAsks(region, search);
  }

  /** The two variables the handlers share: the region filter and the
      search query. */
  datatype QueryState = QueryState(region: string, search: string)

  const Initial: QueryState := QueryState(AllPath, "")

  /** The user actions that change the query state. `SearchSettled` is the
      debounce timer firing after the last input event, on a field that
      held `raw` at that event. `RegionPicked` is a click in the options
      list, carrying the clicked element's region, if it has one. */
  datatype Event =
    | SearchSettled(raw: string)
    | SearchCancelled
    | RegionPicked(option: Option<string>)
    | FilterCancelled

  /** The state after an action, and the request it issues, if any. */
  datatype Transition = Transition(next: QueryState, request: Option<Request>)

  function Step(s: QueryState, e: Event): (t: Transition)
    ensures ValidRegion(s.region) ==> ValidRegion(t.next.region)
    ensures AllAllowed(s.search) ==> AllAllowed(t.next.search)
    ensures e.SearchSettled? ==> t.next.search == Sanitise(e.raw)
    ensures e.SearchCancelled? ==> t.next.search == ""
    ensures e.RegionPicked? && e.option.Some? && e.option.value != "" ==>
      ParsePath(t.next.region) == Some(ByRegion(e.option.value))
    ensures e.FilterCancelled? ==> t.next.region == AllPath
    ensures e.RegionPicked? || e.FilterCancelled? ==> t.next.search == s.search
    ensures e.SearchSettled? || e.SearchCancelled? ==> t.next.region == s.region
    ensures t.request.None? <==> e.RegionPicked? && (e.option.None? || e.option.value == "")
    ensures t.request.None? ==> t.next == s
    ensures t.request.Some? ==> t.request.value == Derive(t.next.region, t.next.search)
  {
    match e
    case SearchSettled(raw) =>
      var next := s.(search := Sanitise(raw));
      Transition(next, Some(Derive(next.region, next.search)))
    case SearchCancelled =>
      var next := s.(search := "");
      Transition(next, Some(Derive(next.region, next.search)))
    case RegionPicked(option) =>
      if option.None? || option.value == "" then Transition(s, None)
      else
        var next := s.(region := PathOf(ByRegion(option.value)));
        ParsePathOf(ByRegion(option.value));
        Transition(next, Some(Derive(next.region, next.search)))
    case FilterCancelled =>
      var next := s.(region := AllPath);
      Transition(next, Some(Derive(next.region, next.search)))
  }

  /** The state after a sequence of actions from page load. */
  function Run(events: seq<Event>): QueryState {
    if |events| == 0 then Initial
    else Step(Run(events[..|events| - 1]), events[|events| - 1]).next
  }

  /** Whatever the user does, the region filter is all regions or one named
      region, and the search query holds only allowed characters. */
  lemma {:induction false} RunInvariant(events: seq<Event>)
    ensures ValidRegion(Run(events).region)
    ensures AllAllowed(Run(events).search)
  {
    if |events| > 0 {
      RunInvariant(events[..|events| - 1]);
    }
  }

  /** Page load fetches all countries with no client filter. */
  lemma InitialRequest()
    ensures ParsePath(Derive(Initial.region, Initial.search).path) == Some(AllCountries)
    ensures Derive(Initial.region, Initial.search).nameFilter == ""
  {
  }
}

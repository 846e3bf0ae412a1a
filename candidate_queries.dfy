/**
 * The candidate queries of the client: each builds a relative request path
 * (and query parameters), hands the request to the transport, and maps
 * every item of the `results` it gets back through one of the record
 * builders. The transport is a parameter, `invoke`, giving the `results`
 * list of the reply to a request.
 */
module CandidateQueries {
  import opened Wrappers
  import opened RubyString
  import opened Candidate

  /** A query-parameter value: text, an integer, or `nil`. */
  datatype Param = Text(text: string) | Number(n: int) | Nil

  /** A request to the API: a path relative to the base URL and its query parameters. */
  datatype Request = Request(path: string, params: map<string, Param>)

  function OffsetParam(offset: Option<nat>): Param {
    match offset
    case None => Nil
    case Some(n) => Number(n)
  }

  predicate AllFullForm(items: seq<Item>) {
    forall i :: 0 <= i < |items| ==> FullFormOk(items[i])
  }

  predicate AllSearchForm(items: seq<Item>) {
    forall i :: 0 <= i < |items| ==> SearchFormOk(items[i])
  }

  // ---------------------------------------------------------------------
  // Mapping the results
  // ---------------------------------------------------------------------

  /** `results.map { |c| create(c) }`: one full-form record per item, in order. */
  function CreateAll(items: seq<Item>, ext: External): (r: seq<Record>)
    requires AllFullForm(items)
    ensures |r| == |items|
    ensures forall i :: 0 <= i < |r| ==> r[i] == Create(items[i], ext)
  {
    if |items| == 0 then []
    else [Create(items[0], ext)] + CreateAll(items[1..], ext)
  }

  /** `results.map { |c| create_from_search_results(c) }`: one search-form record per item, in order. */
  function CreateAllFromSearchResults(items: seq<Item>, ext: External): (r: seq<Record>)
    requires AllSearchForm(items)
    ensures |r| == |items|
    ensures forall i :: 0 <= i < |r| ==> r[i] == CreateFromSearchResults(items[i], ext)
  {
    if |items| == 0 then []
    else [CreateFromSearchResults(items[0], ext)] + CreateAllFromSearchResults(items[1..], ext)
  }

  // ---------------------------------------------------------------------
  // Queries
  // ---------------------------------------------------------------------

  function FindRequest(fecid: string, cycle: nat): Request {
    Request(Decimal(cycle) + "/candidates/" + fecid, map[])
  }

  /** The candidate with FEC id `fecid` in `cycle`: the first result, or nothing. */
  function Find(fecid: string, cycle: nat, invoke: Request -> seq<Item>, ext: External): (r: Option<Record>)
    requires var results := invoke(FindRequest(fecid, cycle));
      |results| > 0 ==> FullFormOk(results[0])
    ensures var results := invoke(FindRequest(fecid, cycle));
      && (r.None? <==> |results| == 0)
      && (r.Some? ==> r.value == Create(results[0], ext))
  {
    var results := invoke(FindRequest(fecid, cycle));
    if |results| == 0 then None else Some(Create(results[0], ext))
  }

  function LeadersRequest(category: string, cycle: nat): Request {
    Request(Decimal(cycle) + "/candidates/leaders/" + category, map[])
  }

  /** The leading candidates of a category in `cycle`, one full-form record per result. */
  function Leaders(category: string, cycle: nat, invoke: Request -> seq<Item>, ext: External): (r: seq<Record>)
    requires AllFullForm(invoke(LeadersRequest(category, cycle)))
    ensures var results := invoke(LeadersRequest(category, cycle));
      && |r| == |results|
      && forall i :: 0 <= i < |r| ==> r[i] == Create(results[i], ext)
  {
    CreateAll(invoke(LeadersRequest(category, cycle)), ext)
  }

  function SearchRequest(name: string, cycle: nat, offset: Option<nat>): Request {
    Request(Decimal(cycle) + "/candidates/search", map["query" := Text(name), "offset" := OffsetParam(offset)])
  }

  /** The candidates matching a name in `cycle`, one search-form record per result. */
  function Search(name: string, cycle: nat, offset: Option<nat>, invoke: Request -> seq<Item>, ext: External): (r: seq<Record>)
    requires AllSearchForm(invoke(SearchRequest(name, cycle, offset)))
    ensures var results := invoke(SearchRequest(name, cycle, offset));
      && |r| == |results|
      && forall i :: 0 <= i < |r| ==> r[i] == CreateFromSearchResults(results[i], ext)
  {
    CreateAllFromSearchResults(invoke(SearchRequest(name, cycle, offset)), ext)
  }

  function NewCandidatesRequest(cycle: nat, offset: Option<nat>): Request {
    Request(Decimal(cycle) + "/candidates/new", map["offset" := OffsetParam(offset)])
  }

  /** The newly filed candidates of `cycle`, one full-form record per result. */
  function NewCandidates(cycle: nat, offset: Option<nat>, invoke: Request -> seq<Item>, ext: External): (r: seq<Record>)
    requires AllFullForm(invoke(NewCandidatesRequest(cycle, offset)))
    ensures var results := invoke(NewCandidatesRequest(cycle, offset));
      && |r| == |results|
      && forall i :: 0 <= i < |r| ==> r[i] == Create(results[i], ext)
  {
    CreateAll(invoke(NewCandidatesRequest(cycle, offset)), ext)
  }

  /** The segments of a seat path: cycle, `seats` and state, then the
    * chamber when there is one, then the district when there are both. */
  function SeatSegments(state: string, chamber: Option<string>, district: Option<nat>, cycle: nat): seq<string> {
    [Decimal(cycle), "seats", state]
      + match chamber
        case None => []
        case Some(c) => [c] + match district
          case None => []
          case Some(d) => [Decimal(d)]
  }

  /** The path of a state or seat query, grown one segment at a time. */
  method SeatPath(state: string, chamber: Option<string>, district: Option<nat>, cycle: nat) returns (path: string)
    ensures path == Join(SeatSegments(state, chamber, district, cycle), '/')
    ensures '/' !in state && (chamber.Some? ==> '/' !in chamber.value) ==>
      Fields(path, '/') == SeatSegments(state, chamber, district, cycle)
  {
    ghost var segments := [Decimal(cycle), "seats", state];
    path := Decimal(cycle) + "/seats/" + state;
    JoinThree(Decimal(cycle), "seats", state, '/');
    assert path == Join(segments, '/');
    if chamber.Some? {
      JoinSnoc(segments, chamber.value, '/');
      path := path + "/" + chamber.value;
      segments := segments + [chamber.value];
      if district.Some? {
        JoinSnoc(segments, Decimal(district.value), '/');
        path := path + "/" + Decimal(district.value);
        segments := segments + [Decimal(district.value)];
      }
    }
    assert segments == SeatSegments(state, chamber, district, cycle);
    if '/' !in state && (chamber.Some? ==> '/' !in chamber.value) {
      DecimalExcludes(cycle, '/');
      if district.Some? {
        DecimalExcludes(district.value, '/');
      }
      FieldsJoin(segments, '/');
    }
  }

  function StateRequest(state: string, chamber: Option<string>, district: Option<nat>, cycle: nat, offset: Option<nat>): Request {
    Request(Join(SeatSegments(state, chamber, district, cycle), '/'), map["offset" := OffsetParam(offset)])
  }

  /** The candidates for a state, optionally narrowed to a chamber and a
    * district, one search-form record per result. */
  method State(state: string, chamber: Option<string>, district: Option<nat>, cycle: nat, offset: Option<nat>,
               invoke: Request -> seq<Item>, ext: External) returns (records: seq<Record>)
    requires AllSearchForm(invoke(StateRequest(state, chamber, district, cycle, offset)))
    ensures var results := invoke(StateRequest(state, chamber, district, cycle, offset));
      && |records| == |results|
      && forall i :: 0 <= i < |records| ==> records[i] == CreateFromSearchResults(results[i], ext)
  {
    var path := SeatPath(state, chamber, district, cycle);
    var results := invoke(Request(path, map["offset" := OffsetParam(offset)]));
    records := CreateAllFromSearchResults(results, ext);
  }

  // ---------------------------------------------------------------------
  // Request paths
  // ---------------------------------------------------------------------

  lemma FieldsOfThree(a: string, b: string, c: string)
    requires '/' !in a && '/' !in b && '/' !in c
    ensures Fields(a + "/" + b + "/" + c, '/') == [a, b, c]
  {
    FieldsJoin([a, b, c], '/');
    JoinThree(a, b, c, '/');
  }

  /** A lookup asks for `cycle/candidates/fecid`. */
  lemma FindPathSegments(fecid: string, cycle: nat)
    requires '/' !in fecid
    ensures Fields(FindRequest(fecid, cycle).path, '/') == [Decimal(cycle), "candidates", fecid]
    ensures FindRequest(fecid, cycle).params == map[]
  {
    DecimalExcludes(cycle, '/');
    var path := FindRequest(fecid, cycle).path;
    assert path == Decimal(cycle) + "/" + "candidates" + "/" + fecid;
    FieldsOfThree(Decimal(cycle), "candidates", fecid);
  }

  /** A leaderboard asks for `cycle/candidates/leaders/category`. */
  lemma LeadersPathSegments(category: string, cycle: nat)
    requires '/' !in category
    ensures Fields(LeadersRequest(category, cycle).path, '/') == [Decimal(cycle), "candidates", "leaders", category]
    ensures LeadersRequest(category, cycle).params == map[]
  {
    DecimalExcludes(cycle, '/');
    var path := LeadersRequest(category, cycle).path;
    var prefix := Decimal(cycle) + "/" + "candidates" + "/" + "leaders";
    assert path == prefix + ['/'] + category;
    FieldsOfThree(Decimal(cycle), "candidates", "leaders");
    FieldsConcat(prefix, category, '/');
    FieldsNoSep(category, '/');
  }

  /** Every listed leaderboard category is one path segment of its leaders request. */
  lemma CategoryLeadersPath(category: string, cycle: nat)
    requires category in Categories()
    ensures Fields(LeadersRequest(category, cycle).path, '/') == [Decimal(cycle), "candidates", "leaders", category]
  {
    LeadersPathSegments(category, cycle);
  }

  /** A name search asks for `cycle/candidates/search` with the name and offset as parameters. */
  lemma SearchRequestShape(name: string, cycle: nat, offset: Option<nat>)
    ensures Fields(SearchRequest(name, cycle, offset).path, '/') == [Decimal(cycle), "candidates", "search"]
    ensures SearchRequest(name, cycle, offset).params.Keys == {"query", "offset"}
    ensures SearchRequest(name, cycle, offset).params["query"] == Text(name)
    ensures SearchRequest(name, cycle, offset).params["offset"] == OffsetParam(offset)
  {
    DecimalExcludes(cycle, '/');
    var path := SearchRequest(name, cycle, offset).path;
    assert path == Decimal(cycle) + "/" + "candidates" + "/" + "search";
    FieldsOfThree(Decimal(cycle), "candidates", "search");
  }

  /** A new-candidates listing asks for `cycle/candidates/new` with the offset as its parameter. */
  lemma NewCandidatesRequestShape(cycle: nat, offset: Option<nat>)
    ensures Fields(NewCandidatesRequest(cycle, offset).path, '/') == [Decimal(cycle), "candidates", "new"]
    ensures NewCandidatesRequest(cycle, offset).params == map["offset" := OffsetParam(offset)]
  {
    DecimalExcludes(cycle, '/');
    var path := NewCandidatesRequest(cycle, offset).path;
    assert path == Decimal(cycle) + "/" + "candidates" + "/" + "new";
    FieldsOfThree(Decimal(cycle), "candidates", "new");
  }

  /** A seat path has three segments without a chamber (a district alone
    * is ignored), four with a chamber, five with a chamber and a district. */
  lemma SeatPathDepth(state: string, chamber: Option<string>, district: Option<nat>, cycle: nat, offset: Option<nat>)
    requires '/' !in state && (chamber.Some? ==> '/' !in chamber.value)
    ensures var segments := Fields(StateRequest(state, chamber, district, cycle, offset).path, '/');
      |segments| == (if chamber.None? then 3 else if district.None? then 4 else 5)
    ensures chamber.None? ==>
      StateRequest(state, chamber, district, cycle, offset) == StateRequest(state, None, None, cycle, offset)
  {
    var segments := SeatSegments(state, chamber, district, cycle);
    DecimalExcludes(cycle, '/');
    if district.Some? {
      DecimalExcludes(district.value, '/');
    }
    FieldsJoin(segments, '/');
  }
}

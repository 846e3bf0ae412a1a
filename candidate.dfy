/**
 * The candidate record of the campaign-finance client and the rules that
 * build it from one loosely typed API item: the full form (candidate
 * lookups, leaderboards, new-candidate listings) and the search form
 * (name search, state and seat queries), with the field helpers they share.
 */
module Candidate {
  import opened Wrappers
  import opened RubyString

  // ---------------------------------------------------------------------
  // Data
  // ---------------------------------------------------------------------

  datatype Office = House | Senate | President {
    /** The string the record holds for this office. */
    function Name(): string {
      match this
      case House => "house"
      case Senate => "senate"
      case President => "president"
    }
  }

  /** The ten financial totals of a full-form item. */
  datatype Total =
    | Receipts | Contributions | FromIndividuals | FromPacs | CandidateLoans
    | Disbursements | Refunds | DebtsOwed | BeginCash | EndCash

  /** A nested committee structure, kept as the string-keyed mapping the API sends. */
  datatype Committee = Committee(fields: map<string, string>)

  /** The `candidate` sub-mapping of a search-form item. */
  datatype CandidateRef = CandidateRef(name: Option<string>, id: Option<string>, party: Option<string>)

  /** One API item. A missing key or a JSON null is `None`. */
  datatype Item = Item(
    name: Option<string>,
    id: Option<string>,
    state: Option<string>,
    district: Option<string>,
    party: Option<string>,
    fecUri: Option<string>,
    committee: Option<Committee>,
    mailingCity: Option<string>,
    mailingAddress: Option<string>,
    mailingState: Option<string>,
    mailingZip: Option<string>,
    totalReceipts: Option<string>,
    totalContributions: Option<string>,
    totalFromIndividuals: Option<string>,
    totalFromPacs: Option<string>,
    candidateLoans: Option<string>,
    totalDisbursements: Option<string>,
    totalRefunds: Option<string>,
    debtsOwed: Option<string>,
    beginCash: Option<string>,
    endCash: Option<string>,
    status: Option<string>,
    dateCoverageFrom: Option<string>,
    dateCoverageTo: Option<string>,
    candidate: Option<CandidateRef>)
  {
    /** The raw text of a total, as sent. */
    function RawTotal(t: Total): Option<string> {
      match t
      case Receipts => totalReceipts
      case Contributions => totalContributions
      case FromIndividuals => totalFromIndividuals
      case FromPacs => totalFromPacs
      case CandidateLoans => candidateLoans
      case Disbursements => totalDisbursements
      case Refunds => totalRefunds
      case DebtsOwed => debtsOwed
      case BeginCash => beginCash
      case EndCash => endCash
    }
  }

  /** The canonical candidate record; a field no builder sets is `None`. */
  datatype Record = Record(
    name: Option<string>,
    id: Option<string>,
    state: Option<string>,
    office: Option<Office>,
    district: nat,
    party: Option<string>,
    fecUri: Option<string>,
    committeeId: Option<string>,
    mailingCity: Option<string>,
    mailingAddress: Option<string>,
    mailingState: Option<string>,
    mailingZip: Option<string>,
    totalReceipts: Option<real>,
    totalContributions: Option<real>,
    totalFromIndividuals: Option<real>,
    totalFromPacs: Option<real>,
    candidateLoans: Option<real>,
    totalDisbursements: Option<real>,
    totalRefunds: Option<real>,
    debtsOwed: Option<real>,
    beginCash: Option<real>,
    endCash: Option<real>,
    status: Option<string>,
    dateCoverageFrom: Option<string>,
    dateCoverageTo: Option<string>,
    relativeUri: Option<string>)
  {
    function Total(t: Total): Option<real> {
      match t
      case Receipts => totalReceipts
      case Contributions => totalContributions
      case FromIndividuals => totalFromIndividuals
      case FromPacs => totalFromPacs
      case CandidateLoans => candidateLoans
      case Disbursements => totalDisbursements
      case Refunds => totalRefunds
      case DebtsOwed => debtsOwed
      case BeginCash => beginCash
      case EndCash => endCash
    }
  }

  /**
   * Code the builders call but that is not part of this model: the
   * committee-id extraction of the client's base class, and Ruby's
   * `String#to_f` on a present total.
   */
  datatype External = External(
    parseCommittee: Option<Committee> -> Option<string>,
    toF: string -> real)

  /** `raw.to_f`: `nil` coerces to zero. */
  function ToF(raw: Option<string>, ext: External): real {
    match raw
    case None => 0.0
    case Some(text) => ext.toF(text)
  }

  // ---------------------------------------------------------------------
  // Field helpers
  // ---------------------------------------------------------------------

  /** A URI whose last path segment Ruby can find (`uri.split('/').last` is not nil). */
  predicate UriOk(uri: Option<string>) {
    uri.Some? ==> HasField(uri.value, '/')
  }

  /** The state code of a state URI: the first two characters of its last segment. */
  function ParseState(state: Option<string>): (r: Option<string>)
    requires UriOk(state)
    ensures r.None? <==> state.None?
    ensures state.Some? ==>
      var segment := LastField(state.value, '/');
      |r.value| == Min(2, |segment|) && r.value == segment[..|r.value|]
  {
    if state.None? then None else Slice(LastField(state.value, '/'), 0, 1)
  }

  /** The office an FEC candidate id stands for, read from its first character. */
  function ParseOffice(id: Option<string>): (r: Option<Office>)
    ensures r.None? <==> id.None?
    ensures id.Some? && |id.value| > 0 && id.value[0] == 'H' ==> r == Some(House)
    ensures id.Some? && |id.value| > 0 && id.value[0] == 'S' ==> r == Some(Senate)
    ensures id.Some? && (|id.value| == 0 || (id.value[0] != 'H' && id.value[0] != 'S')) ==>
      r == Some(President)
  {
    if id.None? then None
    else
      var initial := Slice(id.value, 0, 0).value;
      assert |id.value| > 0 ==> initial == [id.value[0]];
      if initial == "H" then Some(House)
      else if initial == "S" then Some(Senate)
      else Some(President)
  }

  /** Only the first character of an id decides the office, so the
    * search form's `id[0..0]` gives the same office as the whole id. */
  lemma ParseOfficeInitialOnly(id: string)
    ensures Slice(id, 0, 0).Some?
    ensures ParseOffice(Slice(id, 0, 0)) == ParseOffice(Some(id))
  {
    if |id| > 0 {
      assert Slice(id, 0, 0).value == [id[0]];
    }
  }

  /** The integer the file-name stem of a district URI starts with
    * (`"path/to/7.xml"` gives 7); `nil.to_i` is 0 when the stem is all dots. */
  function StemNumber(uri: string): int
    requires HasField(uri, '/')
  {
    match FirstField(LastField(uri, '/'), '.')
    case None => 0
    case Some(stem) => ToI(stem)
  }

  /** The district number of a district URI, 0 when absent or not positive. */
  function ParseDistrict(uri: Option<string>): (r: nat)
    requires UriOk(uri)
    ensures uri.None? ==> r == 0
    ensures uri.Some? ==> (r > 0 <==> StemNumber(uri.value) > 0)
    ensures r > 0 ==> r == StemNumber(uri.value)
  {
    if uri.Some? && StemNumber(uri.value) > 0 then StemNumber(uri.value) else 0
  }

  // ---------------------------------------------------------------------
  // Record builders
  // ---------------------------------------------------------------------

  /** What the full-form builder needs of its item: state and district URIs with a segment. */
  predicate FullFormOk(item: Item) {
    UriOk(item.state) && UriOk(item.district)
  }

  /** The record of a full-form item. */
  function Create(item: Item, ext: External): (r: Record)
    requires FullFormOk(item)
    ensures r.name == item.name && r.id == item.id && r.party == item.party
    ensures r.fecUri == item.fecUri && r.status == item.status
    ensures r.mailingCity == item.mailingCity && r.mailingAddress == item.mailingAddress
    ensures r.mailingState == item.mailingState && r.mailingZip == item.mailingZip
    ensures r.dateCoverageFrom == item.dateCoverageFrom && r.dateCoverageTo == item.dateCoverageTo
    ensures r.state == ParseState(item.state)
    ensures r.office == ParseOffice(item.id)
    ensures r.district == ParseDistrict(item.district)
    ensures r.committeeId == ext.parseCommittee(item.committee)
    ensures r.totalReceipts == Some(ToF(item.totalReceipts, ext))
    ensures r.totalContributions == Some(ToF(item.totalContributions, ext))
    ensures r.totalFromIndividuals == Some(ToF(item.totalFromIndividuals, ext))
    ensures r.totalFromPacs == Some(ToF(item.totalFromPacs, ext))
    ensures r.candidateLoans == Some(ToF(item.candidateLoans, ext))
    ensures r.totalDisbursements == Some(ToF(item.totalDisbursements, ext))
    ensures r.totalRefunds == Some(ToF(item.totalRefunds, ext))
    ensures r.debtsOwed == Some(ToF(item.debtsOwed, ext))
    ensures r.beginCash == Some(ToF(item.beginCash, ext))
    ensures r.endCash == Some(ToF(item.endCash, ext))
    ensures r.relativeUri.None?
  {
    Record(
      name := item.name,
      id := item.id,
      state := ParseState(item.state),
      office := ParseOffice(item.id),
      district := ParseDistrict(item.district),
      party := item.party,
      fecUri := item.fecUri,
      committeeId := ext.parseCommittee(item.committee),
      mailingCity := item.mailingCity,
      mailingAddress := item.mailingAddress,
      mailingState := item.mailingState,
      mailingZip := item.mailingZip,
      totalReceipts := Some(ToF(item.totalReceipts, ext)),
      totalContributions := Some(ToF(item.totalContributions, ext)),
      totalFromIndividuals := Some(ToF(item.totalFromIndividuals, ext)),
      totalFromPacs := Some(ToF(item.totalFromPacs, ext)),
      candidateLoans := Some(ToF(item.candidateLoans, ext)),
      totalDisbursements := Some(ToF(item.totalDisbursements, ext)),
      totalRefunds := Some(ToF(item.totalRefunds, ext)),
      debtsOwed := Some(ToF(item.debtsOwed, ext)),
      beginCash := Some(ToF(item.beginCash, ext)),
      endCash := Some(ToF(item.endCash, ext)),
      status := item.status,
      dateCoverageFrom := item.dateCoverageFrom,
      dateCoverageTo := item.dateCoverageTo,
      relativeUri := None)
  }

  /** What the search-form builder needs of its item: a `candidate` with an
    * `id`, and a district URI with a segment. */
  predicate SearchFormOk(item: Item) {
    item.candidate.Some? && item.candidate.value.id.Some? && UriOk(item.district)
  }

  /** The record of a search-form item: identity from the nested `candidate`,
    * the state cut out of the candidate id, nothing financial. */
  function CreateFromSearchResults(item: Item, ext: External): (r: Record)
    requires SearchFormOk(item)
    ensures var c := item.candidate.value;
      r.name == c.name && r.id == c.id && r.party == c.party
    ensures var id := item.candidate.value.id.value;
      && (r.state.None? <==> |id| < 2)
      && (r.state.Some? ==> |r.state.value| == Min(2, |id| - 2) && r.state.value == id[2..2 + |r.state.value|])
    ensures r.office == ParseOffice(item.candidate.value.id)
    ensures r.district == ParseDistrict(item.district)
    ensures r.committeeId == ext.parseCommittee(item.committee)
    ensures r.totalReceipts.None? && r.totalContributions.None? && r.totalFromIndividuals.None?
    ensures r.totalFromPacs.None? && r.candidateLoans.None? && r.totalDisbursements.None?
    ensures r.totalRefunds.None? && r.debtsOwed.None? && r.beginCash.None? && r.endCash.None?
    ensures r.fecUri.None? && r.status.None? && r.relativeUri.None?
    ensures r.mailingCity.None? && r.mailingAddress.None? && r.mailingState.None? && r.mailingZip.None?
    ensures r.dateCoverageFrom.None? && r.dateCoverageTo.None?
  {
    var c := item.candidate.value;
    ParseOfficeInitialOnly(c.id.value);
    Record(
      name := c.name,
      id := c.id,
      state := Slice(c.id.value, 2, 3),
      office := ParseOffice(Slice(c.id.value, 0, 0)),
      district := ParseDistrict(item.district),
      party := c.party,
      fecUri := None,
      committeeId := ext.parseCommittee(item.committee),
      mailingCity := None,
      mailingAddress := None,
      mailingState := None,
      mailingZip := None,
      totalReceipts := None,
      totalContributions := None,
      totalFromIndividuals := None,
      totalFromPacs := None,
      candidateLoans := None,
      totalDisbursements := None,
      totalRefunds := None,
      debtsOwed := None,
      beginCash := None,
      endCash := None,
      status := None,
      dateCoverageFrom := None,
      dateCoverageTo := None,
      relativeUri := None)
  }

  /** The leaderboard categories, keyed by the name the leaders query takes. */
  function Categories(): (m: map<string, string>)
    ensures forall key :: key in m ==> key != "" && '/' !in key
  {
    map[
      "individual_total" := "Contributions from individuals",
      "contribution_total" := "Total contributions",
      "candidate_loan" := "Loans from candidate",
      "receipts_total" := "Total receipts",
      "refund_total" := "Total refunds",
      "pac_total" := "Contributions from PACs",
      "disbursements_total" := "Total disbursements",
      "end_cash" := "Cash on hand",
      "debts_owed" := "Debts owed by"
    ]
  }
}

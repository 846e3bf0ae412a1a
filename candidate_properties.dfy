/**
 * What the candidate helpers and builders promise beyond their own
 * contracts: the URI shapes they read back, worked examples of each
 * helper and builder, and the agreement of the two builders on the identity
 * fields.
 */
module CandidateProperties {
  import opened Wrappers
  import opened RubyString
  import opened Candidate

  // ---------------------------------------------------------------------
  // Helpers
  // ---------------------------------------------------------------------

  /** The office names are the three strings the record uses, all different. */
  lemma OfficeNamesDistinct(a: Office, b: Office)
    ensures a.Name() in {"house", "senate", "president"}
    ensures a.Name() == b.Name() ==> a == b
  {
    if a != b {
      assert a.Name()[0] != b.Name()[0];
    }
  }

  /** A state URI ending in a segment gives that segment's first two characters. */
  lemma ParseStateOfSegment(prefix: string, segment: string)
    requires segment != "" && '/' !in segment
    ensures UriOk(Some(prefix + "/" + segment))
    ensures ParseState(Some(prefix + "/" + segment)) == Some(segment[..Min(2, |segment|)])
  {
    LastFieldAfter(prefix, segment, '/');
  }

  /** Trailing slashes on a state URI are ignored, as Ruby's split drops trailing empty fields. */
  lemma ParseStateTrailingSlash(state: string)
    requires HasField(state, '/')
    ensures UriOk(Some(state + "/"))
    ensures ParseState(Some(state + "/")) == ParseState(Some(state))
  {
    LastFieldTrailing(state, '/');
  }

  /** A district URI's number is the integer its file-name stem starts with, floored at 0. */
  lemma ParseDistrictOfFile(prefix: string, stem: string, extension: string)
    requires stem != "" && '/' !in stem && '.' !in stem && '/' !in extension
    ensures UriOk(Some(prefix + "/" + stem + "." + extension))
    ensures ParseDistrict(Some(prefix + "/" + stem + "." + extension)) == Max(0, ToI(stem))
  {
    var file := stem + "." + extension;
    assert '/' !in file;
    LastFieldAfter(prefix, file, '/');
    assert prefix + "/" + stem + "." + extension == prefix + ['/'] + file;
    FirstFieldBefore(stem, extension, '.');
    assert file == stem + ['.'] + extension;
  }

  /** A district URI written for district `n` reads back as `n`. */
  lemma ParseDistrictRoundTrip(prefix: string, n: nat, extension: string)
    requires '/' !in extension
    ensures UriOk(Some(prefix + "/" + Decimal(n) + "." + extension))
    ensures ParseDistrict(Some(prefix + "/" + Decimal(n) + "." + extension)) == n
  {
    DecimalExcludes(n, '/');
    DecimalExcludes(n, '.');
    ParseDistrictOfFile(prefix, Decimal(n), extension);
    ToIOfDecimal(n);
  }

  /** A district URI whose stem is a negative number reads as 0. */
  lemma ParseDistrictNegative(prefix: string, n: nat, extension: string)
    requires '/' !in extension
    ensures UriOk(Some(prefix + "/" + ("-" + Decimal(n)) + "." + extension))
    ensures ParseDistrict(Some(prefix + "/" + ("-" + Decimal(n)) + "." + extension)) == 0
  {
    DecimalExcludes(n, '/');
    DecimalExcludes(n, '.');
    assert "-" + Decimal(n) == ['-'] + Decimal(n);
    ParseDistrictOfFile(prefix, "-" + Decimal(n), extension);
    ToIOfDecimal(n);
  }

  /** Worked examples of the office helper. */
  lemma ParseOfficeExamples()
    ensures ParseOffice(None) == None
    ensures ParseOffice(Some("H0NY01023")) == Some(House)
    ensures ParseOffice(Some("S4CA00123")) == Some(Senate)
    ensures ParseOffice(Some("h1")) == Some(President)
    ensures ParseOffice(Some("")) == Some(President)
  {
  }

  /** Worked examples of the district helper: absent, positive, zero, negative. */
  lemma ParseDistrictExamples()
    ensures ParseDistrict(None) == 0
    ensures UriOk(Some("path/to/7.xml")) && ParseDistrict(Some("path/to/7.xml")) == 7
    ensures UriOk(Some("path/to/0.xml")) && ParseDistrict(Some("path/to/0.xml")) == 0
    ensures UriOk(Some("path/to/-3.xml")) && ParseDistrict(Some("path/to/-3.xml")) == 0
  {
    DistrictSeven();
    DistrictZero();
    DistrictMinusThree();
  }

  lemma DistrictSeven()
    ensures UriOk(Some("path/to/7.xml")) && ParseDistrict(Some("path/to/7.xml")) == 7
  {
    assert Decimal(7) == "7" by { assert DigitChar(7) == '7'; }
    assert "path/to/7.xml" == "path/to" + "/" + "7" + "." + "xml";
    ParseDistrictRoundTrip("path/to", 7, "xml");
  }

  lemma DistrictZero()
    ensures UriOk(Some("path/to/0.xml")) && ParseDistrict(Some("path/to/0.xml")) == 0
  {
    assert Decimal(0) == "0" by { assert DigitChar(0) == '0'; }
    assert "path/to/0.xml" == "path/to" + "/" + "0" + "." + "xml";
    ParseDistrictRoundTrip("path/to", 0, "xml");
  }

  lemma DistrictMinusThree()
    ensures UriOk(Some("path/to/-3.xml")) && ParseDistrict(Some("path/to/-3.xml")) == 0
  {
    assert Decimal(3) == "3" by { assert DigitChar(3) == '3'; }
    assert "path/to/-3.xml" == "path/to" + "/" + ("-" + "3") + "." + "xml";
    ParseDistrictNegative("path/to", 3, "xml");
  }

  /** Worked examples of the state helper. */
  lemma ParseStateExamples()
    ensures ParseState(None) == None
    ensures UriOk(Some("http://x/y/NY")) && ParseState(Some("http://x/y/NY")) == Some("NY")
  {
    assert "http://x/y/NY" == "http://x/y" + "/" + "NY";
    ParseStateOfSegment("http://x/y", "NY");
    assert "NY"[..Min(2, |"NY"|)] == "NY";
  }

  // ---------------------------------------------------------------------
  // Builders
  // ---------------------------------------------------------------------

  /** Every total of a full-form record is present, zero when the item lacks it. */
  lemma FullFormTotals(item: Item, ext: External, t: Total)
    requires FullFormOk(item)
    ensures Create(item, ext).Total(t).Some?
    ensures item.RawTotal(t).None? ==> Create(item, ext).Total(t) == Some(0.0)
    ensures item.RawTotal(t).Some? ==>
      Create(item, ext).Total(t) == Some(ext.toF(item.RawTotal(t).value))
  {
    var r := Create(item, ext);
    match t
    case Receipts =>
    case Contributions =>
    case FromIndividuals =>
    case FromPacs =>
    case CandidateLoans =>
    case Disbursements =>
    case Refunds =>
    case DebtsOwed =>
    case BeginCash =>
    case EndCash =>
  }

  /** A search-form record has no total at all, not even a zero. */
  lemma SearchFormTotals(item: Item, ext: External, t: Total)
    requires SearchFormOk(item)
    ensures CreateFromSearchResults(item, ext).Total(t).None?
  {
    match t
    case Receipts =>
    case Contributions =>
    case FromIndividuals =>
    case FromPacs =>
    case CandidateLoans =>
    case Disbursements =>
    case Refunds =>
    case DebtsOwed =>
    case BeginCash =>
    case EndCash =>
  }

  /** The two builders agree on the identity fields of an item whose
    * top-level name, id and party match its nested `candidate`. */
  lemma BuildersAgree(item: Item, ext: External)
    requires FullFormOk(item) && SearchFormOk(item)
    requires item.name == item.candidate.value.name
    requires item.id == item.candidate.value.id
    requires item.party == item.candidate.value.party
    ensures var full, search := Create(item, ext), CreateFromSearchResults(item, ext);
      && full.name == search.name && full.id == search.id && full.party == search.party
      && full.office == search.office && full.district == search.district
      && full.committeeId == search.committeeId
  {
  }

  /** A worked full-form example: a House id, a state URI, a party
    * and one total. */
  lemma FullFormExample(item: Item, ext: External)
    requires item.id == Some("H0NY01023") && item.state == Some("http://x/NY")
    requires item.party == Some("DEM") && item.totalReceipts == Some("1234.5")
    requires item.district.None? && item.totalRefunds.None?
    ensures FullFormOk(item)
    ensures var r := Create(item, ext);
      && r.office == Some(House) && r.state == Some("NY") && r.party == Some("DEM")
      && r.district == 0 && r.totalReceipts == Some(ext.toF("1234.5"))
      && r.totalRefunds == Some(0.0)
  {
    assert "http://x/NY" == "http://x" + "/" + "NY";
    ParseStateOfSegment("http://x", "NY");
    assert "NY"[..Min(2, |"NY"|)] == "NY";
  }

  /** A worked search-form example: a Senate id from California and a district URI. */
  lemma SearchFormExample(item: Item, ext: External)
    requires item.candidate == Some(CandidateRef(Some("Jane Doe"), Some("S4CA00123"), Some("REP")))
    requires item.district == Some("path/3.xml")
    ensures SearchFormOk(item)
    ensures var r := CreateFromSearchResults(item, ext);
      && r.state == Some("CA") && r.office == Some(Senate) && r.district == 3
      && r.name == Some("Jane Doe") && r.party == Some("REP")
      && r.totalReceipts.None? && r.endCash.None?
  {
    var id := "S4CA00123";
    assert Slice(id, 2, 3) == Some("CA") by { assert id[2..4] == "CA"; }
    DistrictThree();
  }

  lemma DistrictThree()
    ensures UriOk(Some("path/3.xml")) && ParseDistrict(Some("path/3.xml")) == 3
  {
    assert Decimal(3) == "3" by { assert DigitChar(3) == '3'; }
    assert "path/3.xml" == "path" + "/" + "3" + "." + "xml";
    ParseDistrictRoundTrip("path", 3, "xml");
  }
}

# Candidate normalization of the campaign_cash client, in Dafny

`campaign_cash` is a Ruby client for a campaign-finance API. Its candidate
class turns one loosely typed API item (a string-keyed mapping of strings,
nulls and nested mappings) into one candidate record, in one of two forms:

- the **full form** (`create`), used by candidate lookups, leaderboards and
  new-candidate listings. It copies the identity, mailing and coverage
  fields. It coerces the ten financial totals, and it derives the state,
  office and district.
- the **search form** (`create_from_search_results`), used by name searches
  and state or seat queries. It reads the identity from the nested
  `candidate` mapping and cuts the state out of the candidate id. It leaves
  everything financial absent.

Around the builders sit the queries (`find`, `leaders`, `search`,
`new_candidates`, `state`). Each builds a relative request path, sends it,
and maps every item of the reply's `results` through a builder.

The model has five modules:

- `Wrappers` (`wrappers.dfy`): `Option`, standing for Ruby's `nil` or a present value.
- `RubyString` (`ruby_string.dfy`): the Ruby string behaviour the code relies
  on. This is `split` with a one-character separator, with trailing empty
  fields dropped. It also covers the range index `s[a..b]` (nil past the end),
  `to_i` (leading whitespace, a sign, digits with single underscores) and the
  decimal rendering string interpolation uses. It proves the partners of
  these: the fields of a join are its parts, Ruby's `split` of a join whose
  last part is non-empty gives back the parts, `to_i` reads back a decimal
  rendering, and `split(sep)` is empty exactly when every character is `sep`.
- `Candidate` (`candidate.dfy`): the item and record datatypes, the helpers
  `parse_state`, `parse_office` and `parse_district`, both builders and the
  leaderboard categories.
- `CandidateProperties` (`candidate_properties.dfy`): the URI shapes the
  helpers read back, worked examples of the helpers and builders, and the agreement of the two
  builders.
- `CandidateQueries` (`candidate_queries.dfy`): the requests and result
  mapping of the five queries. The seat path of `state` is built by an
  imperative method, one `+=` at a time, as the source does.

Code the model cannot see is passed in as parameters:

- `invoke`: the transport, a function from a request to its `results` list.
- `External.parseCommittee`: the committee-id extraction of the base class.
- `External.toF`: Ruby's `String#to_f`.
- the cycle, instead of a process-wide constant.

The builders are Dafny functions, so building twice from the same item gives
equal records by construction.

Two behaviours of the code a reader might not expect:

- In the search form, `id[2..3]` is nil when the id is shorter than two
  characters, and shorter than two characters when the id has fewer than
  four. The record's state is then absent or shorter, not always a
  two-letter code.
- Nothing makes a record's `id` non-empty or present. The full form copies
  whatever the item holds.

## Model

| member | source | states |
|---|---|---|
| Candidate.ParseState | lib/campaign_cash/candidate.rb:59-61 | absent exactly when the URI is absent; otherwise the first min(2, length) characters of the URI's last `/`-segment |
| CandidateProperties.ParseStateOfSegment | lib/campaign_cash/candidate.rb:59-61 | a URI `prefix/segment` gives the segment's first two characters, whatever the prefix |
| CandidateProperties.ParseStateTrailingSlash | lib/campaign_cash/candidate.rb:60 | a trailing `/` does not change the state, because `split` drops trailing empty fields |
| CandidateProperties.ParseStateExamples | lib/campaign_cash/candidate.rb:59-61 | nil gives nil; `"http://x/y/NY"` gives `"NY"` |
| RubyString.SplitNonEmpty | lib/campaign_cash/candidate.rb:60 | `split('/').last` exists exactly when the string has a character other than `/`; this is the precondition of the URI helpers |
| Candidate.ParseOffice | lib/campaign_cash/candidate.rb:63-72 | absent exactly for an absent id; a first character `H` gives house, `S` senate, anything else or an empty id president |
| Candidate.ParseOfficeInitialOnly | lib/campaign_cash/candidate.rb:53 | the office of `id[0..0]` equals the office of the whole id |
| CandidateProperties.OfficeNamesDistinct | lib/campaign_cash/candidate.rb:65-71 | offices are named `house`, `senate` and `president`, and different offices have different names |
| CandidateProperties.ParseOfficeExamples | lib/campaign_cash/candidate.rb:63-72 | nil, `H…`, `S…`, lower-case `h…` and the empty id give nil, house, senate, president, president |
| Candidate.ParseDistrict | lib/campaign_cash/candidate.rb:74-80 | a natural number; 0 for an absent URI; positive exactly when the integer prefix of the last segment's pre-`.` stem is positive, and then equal to it |
| CandidateProperties.ParseDistrictOfFile | lib/campaign_cash/candidate.rb:74-80 | a URI `prefix/stem.ext` gives max(0, `stem.to_i`) |
| CandidateProperties.ParseDistrictRoundTrip | lib/campaign_cash/candidate.rb:74-80 | a URI written for district n (`prefix/n.ext`) reads back as n |
| CandidateProperties.ParseDistrictNegative | lib/campaign_cash/candidate.rb:74-80 | a URI with a negative stem (`prefix/-n.ext`) gives 0 |
| CandidateProperties.ParseDistrictExamples | lib/campaign_cash/candidate.rb:74-80 | nil gives 0; `path/to/7.xml` gives 7; `path/to/0.xml` and `path/to/-3.xml` give 0 |
| RubyString.ToIDecimal | lib/campaign_cash/candidate.rb:75 | `to_i` of a decimal rendering followed by a character that cannot continue it (not a digit, not `_`, and not `d`/`D` after a lone `0`, which Ruby reads as a radix prefix) is exactly that integer |
| Candidate.Create | lib/campaign_cash/candidate.rb:21-47 | name, id, party, fec_uri, status, mailing fields and coverage dates copied unchanged; state, office and district are the helpers applied to the item's fields; committee id from the base-class extraction; every total present as `to_f` of its field |
| CandidateProperties.FullFormTotals | lib/campaign_cash/candidate.rb:34-43 | for each of the ten totals: present, zero when the item lacks the field, the coerced text otherwise |
| CandidateProperties.FullFormExample | lib/campaign_cash/candidate.rb:21-47 | id `H0NY01023`, state `http://x/NY`, party `DEM`, receipts `1234.5` give house, `NY`, `DEM`, district 0, receipts coerced, absent refunds 0 |
| Candidate.CreateFromSearchResults | lib/campaign_cash/candidate.rb:49-57 | name, id and party from the nested candidate; state is absent exactly when the id is shorter than 2, otherwise the at most two characters at index 2; office equals the office of the whole id; district from the URI; all totals, mailing fields, fec_uri, status and coverage dates absent |
| CandidateProperties.SearchFormTotals | lib/campaign_cash/candidate.rb:49-57 | for each of the ten totals: absent, not zero |
| CandidateProperties.SearchFormExample | lib/campaign_cash/candidate.rb:49-57 | candidate `S4CA00123`/`Jane Doe`/`REP` with district `path/3.xml` gives state `CA`, senate, district 3, name and party copied, no totals |
| CandidateProperties.BuildersAgree | lib/campaign_cash/candidate.rb:21-57 | when the top-level and nested name, id and party match, both builders give the same name, id, party, office, district and committee id |
| Candidate.Categories | lib/campaign_cash/candidate.rb:82-94 | every category key is a non-empty word without `/` |
| CandidateQueries.CategoryLeadersPath | lib/campaign_cash/candidate.rb:107-108 | each listed category is exactly one path segment of its leaders request |
| CandidateQueries.CreateAll | lib/campaign_cash/candidate.rb:110 | the full-form mapping keeps length and order: element i is the builder applied to item i |
| CandidateQueries.CreateAllFromSearchResults | lib/campaign_cash/candidate.rb:118 | the search-form mapping keeps length and order: element i is the builder applied to item i |
| CandidateQueries.Find | lib/campaign_cash/candidate.rb:98-102 | absent exactly when `results` is empty; otherwise the full-form record of the first result |
| RubyString.SplitJoin | lib/campaign_cash/candidate.rb:60 | `split` of a `sep`-join gives back the parts when none holds `sep` and the last is non-empty |
| CandidateQueries.FindPathSegments | lib/campaign_cash/candidate.rb:99 | the request path splits into cycle, `candidates`, fec id, with no parameters |
| CandidateQueries.Leaders | lib/campaign_cash/candidate.rb:107-111 | as many records as results (none for none), record i the full form of result i |
| CandidateQueries.LeadersPathSegments | lib/campaign_cash/candidate.rb:108 | the request path splits into cycle, `candidates`, `leaders`, category, with no parameters |
| CandidateQueries.Search | lib/campaign_cash/candidate.rb:115-119 | as many records as results (none for none), record i the search form of result i |
| CandidateQueries.SearchRequestShape | lib/campaign_cash/candidate.rb:116 | the path splits into cycle, `candidates`, `search`; the parameters are exactly the query name and the offset (nil when absent) |
| CandidateQueries.NewCandidates | lib/campaign_cash/candidate.rb:123-127 | as many records as results (none for none), record i the full form of result i |
| CandidateQueries.NewCandidatesRequestShape | lib/campaign_cash/candidate.rb:124 | the path splits into cycle, `candidates`, `new`; the only parameter is the offset |
| CandidateQueries.SeatPath | lib/campaign_cash/candidate.rb:132-136 | the path built step by step is the `/`-join of cycle, `seats`, state, then chamber if given, then district if chamber and district are given; splitting it on `/` gives those segments back |
| CandidateQueries.SeatPathDepth | lib/campaign_cash/candidate.rb:132-136 | for any offset: 3 segments without a chamber (a district alone is ignored, the request is the state-only one), 4 with a chamber, 5 with chamber and district |
| CandidateQueries.State | lib/campaign_cash/candidate.rb:131-140 | as many records as results (none for none), record i the search form of result i of the seat request |

## Left out

- HTTP transport, JSON parsing and API-key handling (`invoke` and the rest of the base class): these are I/O. `invoke` is a parameter giving the `results` list for a request. A missing or null `results`, and null entries in it, are not modelled.
- `parse_committee` belongs to the base class, which is not part of this model. It is `External.parseCommittee`, an uninterpreted function from an optional committee mapping to an optional string.
- `String#to_f` is floating-point parsing. It is `External.toF`, an uninterpreted function into `real`. The model keeps only the fact that `nil.to_f` is zero. Float precision is not modelled.
- `CURRENT_CYCLE` is a process-wide constant. The cycle is an explicit non-negative integer parameter of every query.
- `initialize`'s dynamic `instance_variable_set` loop and the `state_chamber` alias are Ruby metaprogramming. The record is a fixed datatype, and the alias is the same `State` method.
- Item fields are strings or nil. JSON numbers or other value types in those fields are not modelled.
- Where Ruby raises, the model has preconditions instead:
  - a state or district URI with no character other than `/` (`split('/').last` is nil);
  - a search-form item without `candidate` or without `candidate.id`.
- Query arguments are narrowed to the types the client is called with: `find`'s `fecid` and `leaders`' `category` are strings; `search`'s `name` is a string (a nil name, sent as `query: nil`, is not modelled); the `offset` of `search`, `new_candidates` and `state` is an optional non-negative integer; the state query's `chamber` is a string and its `district` a non-negative integer. Other argument types interpolated into a path are not modelled.
- `find` passes no parameters and `leaders` passes `{}`; the model gives both requests the empty parameter map. What `Base#invoke` does with an omitted parameter argument belongs to the base class, which is not part of this model.
- The path lemmas (`FindPathSegments`, `LeadersPathSegments`, `SeatPath`) state the `/`-fields of a path, empty ones included. Ruby's `split` drops trailing empty fields, so for an empty last segment (say `fecid == ""`) it gives fewer segments; `SplitJoin` states the case where the last segment is non-empty.
- RubyString.ToI: `String#to_i`'s optional `0d`/`0D` radix prefix is not modelled; `ToI("0d7")` is 0 where Ruby gives 7. `RubyString.ToIDecimal` excludes that input.
- Candidate.ParseDistrict: `String#to_i`'s optional `0d` radix prefix is not modelled; a stem like `0d7` reads as 0 here.

/**
 * The parts of Ruby's String behaviour the candidate normalizer relies on:
 * `split` with a one-character separator, the range index `s[a..b]`,
 * `to_i`, and the decimal rendering of integers used by string
 * interpolation.
 */
module RubyString {
  import opened Wrappers

  function Min(a: int, b: int): int { if a <= b then a else b }

  function Max(a: int, b: int): int { if a <= b then b else a }

  // ---------------------------------------------------------------------
  // Splitting
  // ---------------------------------------------------------------------

  /** Position of the first `c` in `s`, or `|s|` when `s` has none. */
  function IndexOf(s: string, c: char): (i: nat)
    ensures i <= |s|
    ensures i < |s| ==> s[i] == c
    ensures forall j :: 0 <= j < i ==> s[j] != c
  {
    if |s| == 0 then 0
    else if s[0] == c then 0
    else 1 + IndexOf(s[1..], c)
  }

  /** Every `sep`-separated field of `s`, empty ones included:
    * `"a//b/"` has the fields `"a"`, `""`, `"b"` and `""`. */
  function Fields(s: string, sep: char): (r: seq<string>)
    ensures |r| >= 1
    ensures forall k :: 0 <= k < |r| ==> sep !in r[k]
    decreases |s|
  {
    var i := IndexOf(s, sep);
    if i == |s| then [s]
    else
      assert sep !in s[..i] by {
        forall j | 0 <= j < i ensures s[..i][j] != sep { }
      }
      [s[..i]] + Fields(s[i + 1..], sep)
  }

  /** `parts` without its trailing empty strings. */
  function DropTrailingEmpty(parts: seq<string>): (r: seq<string>)
    ensures |r| <= |parts| && r == parts[..|r|]
    ensures |r| > 0 ==> r[|r| - 1] != ""
    ensures forall k :: |r| <= k < |parts| ==> parts[k] == ""
  {
    if |parts| > 0 && parts[|parts| - 1] == "" then DropTrailingEmpty(parts[..|parts| - 1])
    else parts
  }

  /** Ruby's `s.split(sep)` for a one-character separator other than a
    * space, with no limit: the fields, trailing empty fields removed
    * (so `"".split('/')` and `"//".split('/')` are both empty). */
  function Split(s: string, sep: char): (r: seq<string>)
    ensures forall k :: 0 <= k < |r| ==> sep !in r[k]
  {
    DropTrailingEmpty(Fields(s, sep))
  }

  /** `s` has a character other than `sep`, i.e. `s.split(sep).last` is not nil. */
  predicate HasField(s: string, sep: char) {
    exists k :: 0 <= k < |s| && s[k] != sep
  }

  lemma {:induction false} FieldsHaveNonEmpty(s: string, sep: char, k: nat)
    requires k < |s| && s[k] != sep
    ensures exists j :: 0 <= j < |Fields(s, sep)| && Fields(s, sep)[j] != ""
    decreases |s|
  {
    var i := IndexOf(s, sep);
    if k < i {
      assert Fields(s, sep)[0] == s[..i];
      assert s[..i][k] == s[k];
    } else {
      assert k > i;
      FieldsHaveNonEmpty(s[i + 1..], sep, k - i - 1);
      var j :| 0 <= j < |Fields(s[i + 1..], sep)| && Fields(s[i + 1..], sep)[j] != "";
      assert Fields(s, sep)[j + 1] == Fields(s[i + 1..], sep)[j];
    }
  }

  lemma {:induction false} FieldsAllEmpty(s: string, sep: char)
    requires forall k :: 0 <= k < |s| ==> s[k] == sep
    ensures forall j :: 0 <= j < |Fields(s, sep)| ==> Fields(s, sep)[j] == ""
    decreases |s|
  {
    if |s| > 0 {
      assert IndexOf(s, sep) == 0;
      FieldsAllEmpty(s[1..], sep);
    }
  }

  /** `s.split(sep)` is non-empty exactly when `s` has a non-`sep` character. */
  lemma SplitNonEmpty(s: string, sep: char)
    ensures HasField(s, sep) <==> |Split(s, sep)| > 0
  {
    var parts := Fields(s, sep);
    var r := Split(s, sep);
    if HasField(s, sep) {
      var k :| 0 <= k < |s| && s[k] != sep;
      FieldsHaveNonEmpty(s, sep, k);
      var j :| 0 <= j < |parts| && parts[j] != "";
    } else {
      FieldsAllEmpty(s, sep);
    }
  }

  /** Ruby's `s.split(sep).last`, which exists when `HasField(s, sep)`. */
  function LastField(s: string, sep: char): (r: string)
    requires HasField(s, sep)
    ensures r != "" && sep !in r
  {
    SplitNonEmpty(s, sep);
    var parts := Split(s, sep);
    parts[|parts| - 1]
  }

  /** Ruby's `s.split(sep).first`, nil when the split is empty; a leading
    * separator gives an empty first field (`".xml"` gives `""`). */
  function FirstField(s: string, sep: char): (r: Option<string>)
    ensures r.None? <==> !HasField(s, sep)
    ensures r.Some? ==> sep !in r.value
  {
    SplitNonEmpty(s, sep);
    var parts := Split(s, sep);
    if |parts| == 0 then None else Some(parts[0])
  }

  /** A string without the separator is its own single field. */
  lemma FieldsNoSep(s: string, sep: char)
    requires sep !in s
    ensures Fields(s, sep) == [s]
  {
  }

  /** Splitting at a separator splits the fields: the fields of `a`, then those of `b`. */
  lemma {:induction false} FieldsConcat(a: string, b: string, sep: char)
    ensures Fields(a + [sep] + b, sep) == Fields(a, sep) + Fields(b, sep)
    decreases |a|
  {
    var s := a + [sep] + b;
    var i := IndexOf(a, sep);
    if i == |a| {
      assert s[|a|] == sep;
      assert IndexOf(s, sep) == |a|;
      assert s[..|a|] == a;
      assert s[|a| + 1..] == b;
    } else {
      assert s[i] == sep;
      assert IndexOf(s, sep) == i;
      assert s[..i] == a[..i];
      assert s[i + 1..] == a[i + 1..] + [sep] + b;
      FieldsConcat(a[i + 1..], b, sep);
    }
  }

  /** Ruby's `parts.join(sep)` for a one-character separator. */
  function Join(parts: seq<string>, sep: char): string {
    if |parts| == 0 then ""
    else if |parts| == 1 then parts[0]
    else parts[0] + [sep] + Join(parts[1..], sep)
  }

  /** Joining three parts puts one separator between each two. */
  lemma JoinThree(a: string, b: string, c: string, sep: char)
    ensures Join([a, b, c], sep) == a + [sep] + b + [sep] + c
  {
    assert [a, b, c][1..] == [b, c];
    assert [b, c][1..] == [c];
    assert Join([c], sep) == c;
    assert Join([b, c], sep) == b + [sep] + c;
    assert Join([a, b, c], sep) == a + [sep] + (b + [sep] + c);
  }

  lemma {:induction false} JoinSnoc(parts: seq<string>, last: string, sep: char)
    requires |parts| >= 1
    ensures Join(parts + [last], sep) == Join(parts, sep) + [sep] + last
  {
    if |parts| > 1 {
      assert (parts + [last])[1..] == parts[1..] + [last];
      JoinSnoc(parts[1..], last, sep);
    }
  }

  /** The fields of a join are its parts, when no part holds the separator. */
  lemma {:induction false} FieldsJoin(parts: seq<string>, sep: char)
    requires |parts| >= 1
    requires forall k :: 0 <= k < |parts| ==> sep !in parts[k]
    ensures Fields(Join(parts, sep), sep) == parts
  {
    FieldsNoSep(parts[0], sep);
    if |parts| > 1 {
      FieldsConcat(parts[0], Join(parts[1..], sep), sep);
      FieldsJoin(parts[1..], sep);
      assert parts == [parts[0]] + parts[1..];
    }
  }

  /** Ruby's `split` of a join recovers the parts, when no part holds the
    * separator and the last part is not empty (otherwise `split` drops it). */
  lemma SplitJoin(parts: seq<string>, sep: char)
    requires |parts| >= 1 && parts[|parts| - 1] != ""
    requires forall k :: 0 <= k < |parts| ==> sep !in parts[k]
    ensures Split(Join(parts, sep), sep) == parts
  {
    FieldsJoin(parts, sep);
  }

  /** The last field after a separator is the text that follows it. */
  lemma LastFieldAfter(prefix: string, field: string, sep: char)
    requires field != "" && sep !in field
    ensures HasField(prefix + [sep] + field, sep)
    ensures LastField(prefix + [sep] + field, sep) == field
  {
    var s := prefix + [sep] + field;
    assert s[|s| - 1] == field[|field| - 1] != sep;
    FieldsConcat(prefix, field, sep);
    FieldsNoSep(field, sep);
    assert Fields(s, sep)[|Fields(s, sep)| - 1] == field;
  }

  /** Trailing separators do not change the last field. */
  lemma LastFieldTrailing(s: string, sep: char)
    requires HasField(s, sep)
    ensures HasField(s + [sep], sep)
    ensures LastField(s + [sep], sep) == LastField(s, sep)
  {
    var k :| 0 <= k < |s| && s[k] != sep;
    assert (s + [sep])[k] == s[k];
    FieldsConcat(s, "", sep);
    assert s + [sep] + "" == s + [sep];
    FieldsNoSep("", sep);
  }

  /** The text before the first separator is the first field when it is not empty. */
  lemma FirstFieldBefore(field: string, rest: string, sep: char)
    requires field != "" && sep !in field
    ensures FirstField(field + [sep] + rest, sep) == Some(field)
  {
    FieldsConcat(field, rest, sep);
    FieldsNoSep(field, sep);
  }

  // ---------------------------------------------------------------------
  // Range indexing
  // ---------------------------------------------------------------------

  /** Ruby's `s[from..to]` for non-negative bounds: nil when `from` is past
    * the end, otherwise the characters from `from` up to and including
    * `to`, cut short at the end of the string. */
  function Slice(s: string, from: nat, to: nat): (r: Option<string>)
    ensures r.None? <==> from > |s|
    ensures r.Some? ==> |r.value| == Max(0, Min(to + 1, |s|) - from)
    ensures r.Some? ==> r.value == s[from..from + |r.value|]
  {
    if from > |s| then None
    else Some(s[from..Max(from, Min(to + 1, |s|))])
  }

  // ---------------------------------------------------------------------
  // Integers: String#to_i and decimal rendering
  // ---------------------------------------------------------------------

  predicate IsDigit(c: char) { '0' <= c <= '9' }

  /** Ruby's whitespace for `to_i`: space, tab, newline, vertical tab, form feed, carriage return. */
  predicate IsSpace(c: char) {
    c == ' ' || c == '\t' || c == '\n' || c == '\r' || c as int == 11 || c as int == 12
  }

  function SkipSpace(s: string): (r: string)
    ensures |r| <= |s| && r == s[|s| - |r|..]
    ensures |r| > 0 ==> !IsSpace(r[0])
  {
    if |s| > 0 && IsSpace(s[0]) then SkipSpace(s[1..]) else s
  }

  /** The run of digits `s` starts with, where one underscore may stand
    * between two digits (`"1_000x"` gives `"1000"`, `"1__0"` gives `"1"`). */
  function LeadingDigits(s: string): (r: string)
    ensures forall k :: 0 <= k < |r| ==> IsDigit(r[k])
  {
    if |s| == 0 || !IsDigit(s[0]) then ""
    else if |s| >= 3 && s[1] == '_' && IsDigit(s[2]) then [s[0]] + LeadingDigits(s[2..])
    else [s[0]] + LeadingDigits(s[1..])
  }

  function DigitValue(c: char): nat
    requires IsDigit(c)
  {
    c as int - '0' as int
  }

  function DigitChar(d: nat): (c: char)
    requires d < 10
    ensures IsDigit(c) && DigitValue(c) == d
  {
    ('0' as int + d) as char
  }

  /** The value of a string of decimal digits. */
  function DigitsValue(ds: string): nat
    requires forall k :: 0 <= k < |ds| ==> IsDigit(ds[k])
  {
    if |ds| == 0 then 0
    else DigitsValue(ds[..|ds| - 1]) * 10 + DigitValue(ds[|ds| - 1])
  }

  /** Ruby's `s.to_i`: leading whitespace, an optional sign, then the
    * leading digits; 0 when there are none. The `0d` radix prefix Ruby
    * also accepts is not modelled. */
  function ToI(s: string): int {
    var t := SkipSpace(s);
    if |t| > 0 && t[0] == '-' then 0 - DigitsValue(LeadingDigits(t[1..]))
    else if |t| > 0 && t[0] == '+' then DigitsValue(LeadingDigits(t[1..]))
    else DigitsValue(LeadingDigits(t))
  }

  /** `n.to_s`, as string interpolation renders a non-negative integer. */
  function Decimal(n: nat): (r: string)
    ensures |r| >= 1
    ensures forall k :: 0 <= k < |r| ==> IsDigit(r[k])
  {
    if n < 10 then [DigitChar(n)] else Decimal(n / 10) + [DigitChar(n % 10)]
  }

  /** A digit string holds no character that is not a digit. */
  lemma DecimalExcludes(n: nat, c: char)
    requires !IsDigit(c)
    ensures c !in Decimal(n)
  {
  }

  lemma {:induction false} DigitsValueDecimal(n: nat)
    ensures DigitsValue(Decimal(n)) == n
  {
    if n >= 10 {
      var r := Decimal(n);
      assert r[..|r| - 1] == Decimal(n / 10);
      DigitsValueDecimal(n / 10);
    }
  }

  lemma {:induction false} LeadingDigitsStop(ds: string, rest: string)
    requires forall k :: 0 <= k < |ds| ==> IsDigit(ds[k])
    requires rest == [] || (!IsDigit(rest[0]) && rest[0] != '_')
    ensures LeadingDigits(ds + rest) == ds
  {
    if |ds| > 0 {
      var s := ds + rest;
      assert s[1..] == ds[1..] + rest;
      LeadingDigitsStop(ds[1..], rest);
      assert ds == [ds[0]] + ds[1..];
    } else {
      assert ds + rest == rest;
    }
  }

  /** `to_i` of a string that starts with a digit is the value of its leading digits. */
  lemma ToIOfDigits(s: string)
    requires |s| > 0 && IsDigit(s[0])
    ensures ToI(s) == DigitsValue(LeadingDigits(s))
  {
    assert !IsSpace(s[0]);
    assert SkipSpace(s) == s;
  }

  /** A minus sign in front negates it. */
  lemma ToIOfNegatedDigits(s: string)
    requires |s| > 0 && IsDigit(s[0])
    ensures ToI(['-'] + s) == 0 - DigitsValue(LeadingDigits(s))
  {
    var neg := ['-'] + s;
    assert !IsSpace(neg[0]);
    assert SkipSpace(neg) == neg;
    assert neg[1..] == s;
  }

  /** `to_i` reads back the integer a decimal rendering starts with, and
    * stops at the first character that cannot continue it (a `0` followed
    * by `d` or `D` is excluded: Ruby reads that as the `0d` radix prefix). */
  lemma ToIDecimal(n: nat, rest: string)
    requires rest == [] || (!IsDigit(rest[0]) && rest[0] != '_')
    requires n > 0 || rest == [] || (rest[0] != 'd' && rest[0] != 'D')
    ensures ToI(Decimal(n) + rest) == n
  {
    var d := Decimal(n);
    LeadingDigitsStop(d, rest);
    DigitsValueDecimal(n);
    assert (d + rest)[0] == d[0];
    ToIOfDigits(d + rest);
  }

  /** With a minus sign in front, `to_i` reads back the negated integer. */
  lemma ToINegatedDecimal(n: nat, rest: string)
    requires rest == [] || (!IsDigit(rest[0]) && rest[0] != '_')
    requires n > 0 || rest == [] || (rest[0] != 'd' && rest[0] != 'D')
    ensures ToI("-" + Decimal(n) + rest) == 0 - n
  {
    var d := Decimal(n);
    LeadingDigitsStop(d, rest);
    DigitsValueDecimal(n);
    assert (d + rest)[0] == d[0];
    ToIOfNegatedDigits(d + rest);
    assert "-" + d + rest == ['-'] + (d + rest);
  }

  /** `to_i` reads back a decimal rendering, with or without a minus sign. */
  lemma ToIOfDecimal(n: nat)
    ensures ToI(Decimal(n)) == n
    ensures ToI("-" + Decimal(n)) == 0 - n
  {
    ToIDecimal(n, "");
    assert Decimal(n) + "" == Decimal(n);
    ToINegatedDecimal(n, "");
    assert "-" + Decimal(n) + "" == "-" + Decimal(n);
  }
}

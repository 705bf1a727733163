/** The Range header: parsing it against a file size, and what RFC 9110 says it selects. */
module ByteRange {
  import opened Contracts
  import opened Decimal

  datatype Parsed =
    | NoRange
    | Unsatisfiable
    | Range(start: nat, end: nat)

  // ---------------------------------------------------------------- parsing

  /** The characters a JavaScript trim removes. */
  predicate IsSpace(c: char) {
    var code := c as int;
    || 0x09 <= code <= 0x0D || code == 0x20 || code == 0xA0 || code == 0x1680
    || 0x2000 <= code <= 0x200A || code in {0x2028, 0x2029, 0x202F, 0x205F, 0x3000, 0xFEFF}
  }

  function TrimStart(s: string): string {
    if s != "" && IsSpace(s[0]) then TrimStart(s[1..]) else s
  }

  function TrimEnd(s: string): string {
    if s != "" && IsSpace(s[|s| - 1]) then TrimEnd(s[..|s| - 1]) else s
  }

  function Trim(s: string): string {
    TrimEnd(TrimStart(s))
  }

  /** How many digits `s` starts with. */
  function LeadingDigits(s: string): (n: nat)
    ensures n <= |s| && AllDigits(s[..n]) && (n < |s| ==> !IsDigit(s[n]))
  {
    if s == "" || !IsDigit(s[0]) then 0
    else
      var n := 1 + LeadingDigits(s[1..]);
      assert forall k :: 0 < k < |s| ==> s[k] == s[1..][k - 1];
      n
  }

  const PREFIX: string := "bytes="

  /** The two digit groups of `^bytes=(\d*)-(\d*)$`. */
  function Match(t: string): Option<(string, string)> {
    if !(PREFIX <= t) then None
    else
      var rest := t[|PREFIX|..];
      var n := LeadingDigits(rest);
      if n < |rest| && rest[n] == '-' && AllDigits(rest[n + 1..]) then Some((rest[..n], rest[n + 1..]))
      else None
  }

  /** One range as written: first and last position, or the length of a suffix. */
  datatype Spec =
    | IntRange(first: nat, last: Option<nat>)
    | Suffix(length: nat)

  function SpecOf(rawStart: string, rawEnd: string): Spec
    requires AllDigits(rawStart) && AllDigits(rawEnd)
  {
    if rawStart == "" then Suffix(Number(rawEnd))
    else IntRange(Number(rawStart), if rawEnd == "" then None else Some(Number(rawEnd)))
  }

  function Min(a: int, b: int): int {
    if a <= b then a else b
  }

  function Max(a: int, b: int): int {
    if a <= b then b else a
  }

  /** The arithmetic: clamping a well-formed range to a file. */
  function Clamp(spec: Spec, size: nat): Parsed {
    if size == 0 then Unsatisfiable
    else
      match spec
      case Suffix(length) =>
        if length == 0 then Unsatisfiable else Range(Max(0, size - length), size - 1)
      case IntRange(first, last) =>
        if first >= size then Unsatisfiable
        else
          var end := if last.None? then size - 1 else Min(last.value, size - 1);
          if end < first then Unsatisfiable else Range(first, end)
  }

  function ParseByteRange(header: Option<string>, size: nat): Parsed {
    if header.None? || header.value == "" then NoRange
    else
      var m := Match(Trim(header.value));
      if m.None? || (m.value.0 == "" && m.value.1 == "") then NoRange
      else Clamp(SpecOf(m.value.0, m.value.1), size)
  }

  // ------------------------------------------------------- RFC 9110, 14.1.2

  /** Byte position `b` of a representation of `size` bytes is selected by the range. */
  predicate Selects(spec: Spec, size: nat, b: nat) {
    && b < size
    && match spec
       case Suffix(length) => size <= b + length
       case IntRange(first, last) => first <= b && (last.Some? ==> b <= last.value)
  }

  /** An int-range whose last position precedes its first is invalid. */
  predicate Valid(spec: Spec) {
    spec.IntRange? && spec.last.Some? ==> spec.first <= spec.last.value
  }

  /** A valid range is satisfiable if it starts inside the representation, or is a nonempty suffix. */
  predicate Satisfiable(spec: Spec, size: nat) {
    match spec
    case Suffix(length) => length > 0
    case IntRange(first, _) => first < size
  }

  function Lower(c: char): char {
    if 'A' <= c <= 'Z' then (c as int - 'A' as int + 'a' as int) as char else c
  }

  /** The bytes unit; the standard compares unit names without regard to case. */
  predicate BytesUnit(unit: string) {
    |unit| == 5 && forall k :: 0 <= k < 5 ==> Lower(unit[k]) == "bytes"[k]
  }

  /** The text is one range in the bytes unit, with digit groups `a` and `b`. */
  predicate Spells(t: string, unit: string, a: string, b: string) {
    BytesUnit(unit) && AllDigits(a) && AllDigits(b) && (a != "" || b != "") && t == unit + "=" + a + "-" + b
  }

  /** What two digit groups stand for: `-n` the last n bytes, `m-` all from m on, `m-n` those from m to n. */
  predicate Reads(a: string, b: string, spec: Spec)
    requires AllDigits(a) && AllDigits(b)
  {
    match spec
    case Suffix(length) => a == "" && length == Number(b)
    case IntRange(first, None) => a != "" && b == "" && first == Number(a)
    case IntRange(first, Some(last)) => a != "" && b != "" && first == Number(a) && last == Number(b)
  }

  /** The header, apart from surrounding space, is a single well-formed range standing for `spec`. */
  ghost predicate Names(header: string, spec: Spec) {
    exists unit: string, a: string, b: string :: Spells(Trim(header), unit, a, b) && Reads(a, b, spec)
  }

  /** The header writes its unit in lower case, the one spelling the code looks for. */
  predicate LowerCaseUnit(header: string) {
    PREFIX <= Trim(header)
  }

  lemma LeadingDigitsOf(a: string, rest: string)
    requires AllDigits(a) && rest != "" && !IsDigit(rest[0])
    ensures LeadingDigits(a + rest) == |a|
  {
    assert forall k :: 0 <= k < |a| ==> (a + rest)[k] == a[k];
    assert (a + rest)[|a|] == rest[0];
    assert forall k :: 0 <= k < LeadingDigits(a + rest) ==> IsDigit((a + rest)[..LeadingDigits(a + rest)][k]);
  }

  lemma MatchAccepts(a: string, b: string)
    requires AllDigits(a) && AllDigits(b)
    ensures Match(PREFIX + a + "-" + b) == Some((a, b))
  {
    var t := PREFIX + a + "-" + b;
    var rest := t[|PREFIX|..];
    assert t[..|PREFIX|] == PREFIX;
    assert rest == a + ("-" + b);
    LeadingDigitsOf(a, "-" + b);
    assert rest[|a| + 1..] == b && rest[..|a|] == a;
  }

  lemma MatchReads(t: string, a: string, b: string)
    requires Match(t) == Some((a, b))
    ensures AllDigits(a) && AllDigits(b) && t == PREFIX + a + "-" + b
  {
    var rest := t[|PREFIX|..];
    var n := LeadingDigits(rest);
    assert n < |rest| && rest[n] == '-' && a == rest[..n] && b == rest[n + 1..];
    assert rest == a + "-" + b;
    assert t == PREFIX + rest;
  }

  /** The matcher accepts exactly the texts of the pattern and returns their digit groups. */
  lemma MatchExactly(t: string, a: string, b: string)
    ensures Match(t) == Some((a, b)) <==> AllDigits(a) && AllDigits(b) && t == PREFIX + a + "-" + b
  {
    if AllDigits(a) && AllDigits(b) && t == PREFIX + a + "-" + b {
      MatchAccepts(a, b);
    }
    if Match(t) == Some((a, b)) {
      MatchReads(t, a, b);
    }
  }

  lemma NothingToTrim(s: string)
    requires s != "" && !IsSpace(s[0]) && !IsSpace(s[|s| - 1])
    ensures Trim(s) == s
  {
  }

  lemma SpelledInLowerCase(t: string, unit: string, a: string, b: string)
    requires Spells(t, unit, a, b) && PREFIX <= t
    ensures t == PREFIX + a + "-" + b
  {
    assert t[..6] == PREFIX;
    assert forall k :: 0 <= k < 5 ==> unit[k] == t[k] == PREFIX[k];
    assert unit + "=" == PREFIX;
  }

  lemma ReadsExactly(a: string, b: string, spec: Spec)
    requires AllDigits(a) && AllDigits(b) && (a != "" || b != "")
    ensures Reads(a, b, spec) <==> spec == SpecOf(a, b)
  {
  }

  lemma MatchNames(header: string, a: string, b: string)
    requires Match(Trim(header)) == Some((a, b)) && (a != "" || b != "")
    ensures AllDigits(a) && AllDigits(b) && Names(header, SpecOf(a, b))
  {
    MatchReads(Trim(header), a, b);
    ReadsExactly(a, b, SpecOf(a, b));
    assert PREFIX == "bytes" + "=";
    assert Spells(Trim(header), "bytes", a, b);
  }

  lemma NamesMatches(header: string, spec: Spec) returns (a: string, b: string)
    requires LowerCaseUnit(header) && Names(header, spec)
    ensures Match(Trim(header)) == Some((a, b)) && (a != "" || b != "")
    ensures AllDigits(a) && AllDigits(b) && spec == SpecOf(a, b)
  {
    var unit: string;
    unit, a, b :| Spells(Trim(header), unit, a, b) && Reads(a, b, spec);
    SpelledInLowerCase(Trim(header), unit, a, b);
    MatchAccepts(a, b);
    ReadsExactly(a, b, spec);
  }

  lemma NamesIsMatch(header: string, spec: Spec)
    requires LowerCaseUnit(header)
    ensures Names(header, spec) <==>
              var m := Match(Trim(header));
              m.Some? && (m.value.0 != "" || m.value.1 != "") && spec == SpecOf(m.value.0, m.value.1)
  {
    var m := Match(Trim(header));
    if m.Some? && (m.value.0 != "" || m.value.1 != "") {
      MatchNames(header, m.value.0, m.value.1);
    }
    if Names(header, spec) {
      var _, _ := NamesMatches(header, spec);
    }
  }

  /** A well-formed header is ignored if and only if its unit is not in lower case. */
  lemma IgnoredExactly(header: string, spec: Spec, size: nat)
    requires Names(header, spec)
    ensures ParseByteRange(Some(header), size).NoRange? <==> !LowerCaseUnit(header)
  {
    if LowerCaseUnit(header) {
      NamesIsMatch(header, spec);
      assert header != "";
    }
  }

  /** A header that selects bytes by the standard and is served whole here. */
  lemma CapitalUnitIsIgnored(size: nat)
    ensures Names("Bytes=99-", IntRange(99, None)) && ParseByteRange(Some("Bytes=99-"), size).NoRange?
  {
    var header := "Bytes=99-";
    NothingToTrim(header);
    assert header == "Bytes" + "=" + "99" + "-" + "";
    assert "99"[..1] == "9" && "9"[..0] == "";
    assert Number("99") == 99;
    assert Spells(Trim(header), "Bytes", "99", "");
    assert header[0] != PREFIX[0];
  }

  lemma ClampSelects(spec: Spec, size: nat)
    ensures var p := Clamp(spec, size);
            && !p.NoRange?
            && (p.Range? ==>
                  && p.start <= p.end < size
                  && forall b: nat :: p.start <= b <= p.end <==> Selects(spec, size, b))
            && (p.Unsatisfiable? ==> forall b: nat :: !Selects(spec, size, b))
  {
    if spec.IntRange? && spec.last.Some? {
      assert Clamp(spec, size).Unsatisfiable? ==> size == 0 || spec.first >= size || spec.last.value < spec.first;
    }
  }

  /**
   For every header and every size: a range is returned only within the file, and then it is
   exactly the bytes the header selects; 416 comes exactly when the header is well formed, in
   lower case, and selects no byte; and no range exactly when the header is not well formed or its
   unit is not in lower case.
   */
  lemma ParseSelectsExactly(header: string, size: nat)
    ensures match ParseByteRange(Some(header), size)
            case Range(start, end) =>
              && start <= end < size && LowerCaseUnit(header)
              && exists spec :: Names(header, spec) && forall b: nat :: start <= b <= end <==> Selects(spec, size, b)
            case Unsatisfiable =>
              LowerCaseUnit(header) && exists spec :: Names(header, spec) && forall b: nat :: !Selects(spec, size, b)
            case NoRange => !LowerCaseUnit(header) || forall spec :: !Names(header, spec)
  {
    if LowerCaseUnit(header) {
      forall spec
        ensures Names(header, spec) <==>
                  var m := Match(Trim(header));
                  m.Some? && (m.value.0 != "" || m.value.1 != "") && spec == SpecOf(m.value.0, m.value.1)
      {
        NamesIsMatch(header, spec);
      }
      var m := Match(Trim(header));
      if m.Some? && (m.value.0 != "" || m.value.1 != "") {
        assert header != "";
        var spec := SpecOf(m.value.0, m.value.1);
        assert Names(header, spec);
        ClampSelects(spec, size);
      }
    }
  }

  /**
   Against the standard's own terms, for a header whose unit is in lower case: 416 exactly when the
   range is invalid or unsatisfiable, or the file is empty. For a nonempty suffix of an empty file
   the code is stricter than the standard, which calls that satisfiable.
   */
  lemma UnsatisfiableExactly(header: string, spec: Spec, size: nat)
    requires Names(header, spec)
    ensures ParseByteRange(Some(header), size).Unsatisfiable? <==>
              LowerCaseUnit(header) && (!Valid(spec) || !Satisfiable(spec, size) || size == 0)
  {
    if LowerCaseUnit(header) {
      NamesIsMatch(header, spec);
    }
  }

  // ------------------------------------------------------ rounded numbers

  const EXACT: nat := 9007199254740992

  /** A JavaScript number read from digits: exact below 2^53, and never below 2^53 from there on. */
  predicate Rounds(v: nat, read: nat) {
    if v < EXACT then read == v else read >= EXACT
  }

  predicate RoundsSpec(spec: Spec, read: Spec) {
    match (spec, read)
    case (Suffix(n), Suffix(m)) => Rounds(n, m)
    case (IntRange(f, l), IntRange(g, m)) =>
      Rounds(f, g) && l.Some? == m.Some? && (l.Some? ==> Rounds(l.value, m.value))
    case (Suffix(_), IntRange(_, _)) => false
    case (IntRange(_, _), Suffix(_)) => false
  }

  /** Reading the digits in floating point changes no answer for any file a number can measure. */
  lemma RoundingIsHarmless(spec: Spec, read: Spec, size: nat)
    requires RoundsSpec(spec, read) && size <= EXACT
    ensures Clamp(read, size) == Clamp(spec, size)
  {
  }

  // ------------------------------------------------------------ round trip

  function RangeHeader(start: nat, end: nat): string {
    PREFIX + Print(start) + "-" + Print(end)
  }

  function OpenHeader(start: nat): string {
    PREFIX + Print(start) + "-"
  }

  function SuffixHeader(length: nat): string {
    PREFIX + "-" + Print(length)
  }

  lemma ParsesAs(header: string, a: string, b: string, size: nat)
    requires AllDigits(a) && AllDigits(b) && (a != "" || b != "")
    requires header == PREFIX + a + "-" + b
    ensures ParseByteRange(Some(header), size) == Clamp(SpecOf(a, b), size)
  {
    assert header[0] == 'b';
    assert header[|header| - 1] == if b == "" then '-' else b[|b| - 1];
    NothingToTrim(header);
    MatchExactly(header, a, b);
  }

  /** Printing any range of a file and parsing it back returns it. */
  lemma RangeRoundTrip(start: nat, end: nat, size: nat)
    requires start <= end < size
    ensures ParseByteRange(Some(RangeHeader(start, end)), size) == Range(start, end)
  {
    NumberOfPrint(start);
    NumberOfPrint(end);
    ParsesAs(RangeHeader(start, end), Print(start), Print(end), size);
  }

  lemma OpenForm(start: nat, size: nat)
    requires start < size
    ensures ParseByteRange(Some(OpenHeader(start)), size) == Range(start, size - 1)
  {
    NumberOfPrint(start);
    assert OpenHeader(start) == PREFIX + Print(start) + "-" + "";
    ParsesAs(OpenHeader(start), Print(start), "", size);
  }

  lemma SuffixForm(start: nat, size: nat)
    requires start < size
    ensures ParseByteRange(Some(SuffixHeader(size - start)), size) == Range(start, size - 1)
  {
    NumberOfPrint(size - start);
    assert SuffixHeader(size - start) == PREFIX + "" + "-" + Print(size - start);
    ParsesAs(SuffixHeader(size - start), "", Print(size - start), size);
  }

  /** The open-ended and the suffix form of a range to the last byte parse to that same range. */
  lemma OpenAndSuffixAgree(start: nat, size: nat)
    requires start < size
    ensures ParseByteRange(Some(OpenHeader(start)), size) == Range(start, size - 1)
    ensures ParseByteRange(Some(SuffixHeader(size - start)), size) == Range(start, size - 1)
  {
    OpenForm(start, size);
    SuffixForm(start, size);
  }

  // -------------------------------------------------- every printed header

  /** What `bytes=m-n` is answered with, for any two numbers and any size. */
  lemma PrintedRange(m: nat, n: nat, size: nat)
    ensures ParseByteRange(Some("bytes=" + Print(m) + "-" + Print(n)), size)
         == if m <= n && m < size then Range(m, if n < size then n else size - 1) else Unsatisfiable
  {
    NumberOfPrint(m);
    NumberOfPrint(n);
    ParsesAs("bytes=" + Print(m) + "-" + Print(n), Print(m), Print(n), size);
  }

  /** What `bytes=m-` is answered with. */
  lemma PrintedOpen(m: nat, size: nat)
    ensures ParseByteRange(Some("bytes=" + Print(m) + "-"), size)
         == if m < size then Range(m, size - 1) else Unsatisfiable
  {
    NumberOfPrint(m);
    assert "bytes=" + Print(m) + "-" == PREFIX + Print(m) + "-" + "";
    ParsesAs("bytes=" + Print(m) + "-", Print(m), "", size);
  }

  /** What `bytes=-n` is answered with. */
  lemma PrintedSuffix(n: nat, size: nat)
    ensures ParseByteRange(Some("bytes=-" + Print(n)), size)
         == if n == 0 || size == 0 then Unsatisfiable else Range(if n < size then size - n else 0, size - 1)
  {
    NumberOfPrint(n);
    assert "bytes=-" + Print(n) == PREFIX + "" + "-" + Print(n);
    ParsesAs("bytes=-" + Print(n), "", Print(n), size);
  }

  // ------------------------------------------------------- surrounding space

  predicate AllSpace(s: string) {
    forall k :: 0 <= k < |s| ==> IsSpace(s[k])
  }

  lemma {:induction false} TrimStartDrops(pad: string, s: string)
    requires AllSpace(pad) && s != "" && !IsSpace(s[0])
    ensures TrimStart(pad + s) == s
  {
    if pad == "" {
      assert pad + s == s;
    } else {
      assert (pad + s)[1..] == pad[1..] + s;
      TrimStartDrops(pad[1..], s);
    }
  }

  lemma {:induction false} TrimEndDrops(s: string, pad: string)
    requires AllSpace(pad) && s != "" && !IsSpace(s[|s| - 1])
    ensures TrimEnd(s + pad) == s
  {
    if pad == "" {
      assert s + pad == s;
    } else {
      var n := |pad| - 1;
      assert (s + pad)[..|s + pad| - 1] == s + pad[..n];
      TrimEndDrops(s, pad[..n]);
    }
  }

  /** White space around a header, blanks and tabs among it, changes no answer. */
  lemma PaddingIsIgnored(before: string, header: string, after: string, size: nat)
    requires AllSpace(before) && AllSpace(after)
    requires header != "" && !IsSpace(header[0]) && !IsSpace(header[|header| - 1])
    ensures ParseByteRange(Some(before + header + after), size) == ParseByteRange(Some(header), size)
    ensures IsSpace(' ') && IsSpace('\t')
  {
    assert before + header + after == before + (header + after);
    TrimStartDrops(before, header + after);
    TrimEndDrops(header, after);
    NothingToTrim(header);
  }
}

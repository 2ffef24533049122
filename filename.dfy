/**
 * The sample file naming convention `<sample>-<fold>-<category>.npy` and its
 * parse: `file[:-4].split('-')` unpacked into three names and each passed
 * to `int()`.
 */
module FileName {
  import opened Wrappers

  /** The field separator of a sample file name. */
  const DELIMITER: char := '-'

  /** The number of trailing characters dropped before the name is split (".npy"). */
  const EXTENSION_LENGTH: nat := 4

  // ---------------------------------------------------------------------------
  // Dropping the extension: Python's `name[:-4]`
  // ---------------------------------------------------------------------------

  /** `name[:-4]`: the name without its last four characters; a shorter name gives "". */
  function Stem(name: string): (stem: string)
    ensures stem <= name
    ensures |stem| == if |name| >= EXTENSION_LENGTH then |name| - EXTENSION_LENGTH else 0
  {
    if |name| >= EXTENSION_LENGTH then name[..|name| - EXTENSION_LENGTH] else []
  }

  /** Whatever the last four characters are, they and only they are dropped. */
  lemma StemOfExtended(stem: string, ext: string)
    requires |ext| == EXTENSION_LENGTH
    ensures Stem(stem + ext) == stem
  {
    assert (stem + ext)[..|stem|] == stem;
  }

  // ---------------------------------------------------------------------------
  // Splitting on a delimiter: Python's `s.split(d)`
  // ---------------------------------------------------------------------------

  /** The inverse of a split: the pieces glued back together with `d` between them. */
  function Join(parts: seq<string>, d: char): string
    requires |parts| > 0
  {
    if |parts| == 1 then parts[0] else parts[0] + [d] + Join(parts[1..], d)
  }

  /**
   * `s.split(d)`: the maximal pieces of `s` between occurrences of `d`, in
   * order. There is always at least one piece (`"".split('-') == ['']`).
   */
  function SplitOn(s: string, d: char): (parts: seq<string>)
    ensures |parts| > 0
  {
    if s == [] then [[]]
    else
      var rest := SplitOn(s[1..], d);
      if s[0] == d then [[]] + rest
      else [[s[0]] + rest[0]] + rest[1..]
  }

  /** No piece of a split holds the delimiter, and joining the pieces with it gives the string back. */
  lemma {:induction false} SplitOnJoins(s: string, d: char)
    ensures forall i :: 0 <= i < |SplitOn(s, d)| ==> d !in SplitOn(s, d)[i]
    ensures Join(SplitOn(s, d), d) == s
    decreases |s|
  {
    if s != [] {
      var rest := SplitOn(s[1..], d);
      SplitOnJoins(s[1..], d);
      assert s == [s[0]] + s[1..];
      if s[0] != d {
        var parts := [[s[0]] + rest[0]] + rest[1..];
        assert parts[1..] == rest[1..];
        if |rest| > 1 {
          assert Join(rest, d) == rest[0] + [d] + Join(rest[1..], d);
        }
      }
    }
  }

  /** A delimiter-free prefix extends the first piece of whatever follows it. */
  lemma {:induction false} SplitOnPrefix(p: string, t: string, d: char)
    requires d !in p
    ensures SplitOn(p + t, d) == [p + SplitOn(t, d)[0]] + SplitOn(t, d)[1..]
    decreases |p|
  {
    var r := SplitOn(t, d);
    if p == [] {
      assert p + t == t;
      assert r == [r[0]] + r[1..];
      assert p + r[0] == r[0];
    } else {
      SplitOnPrefix(p[1..], t, d);
      assert (p + t)[1..] == p[1..] + t;
      assert (p + t)[0] == p[0];
      assert [p[0]] + (p[1..] + SplitOn(t, d)[0]) == p + SplitOn(t, d)[0];
    }
  }

  /** Splitting undoes joining: the split of a join of delimiter-free pieces is those pieces. */
  lemma {:induction false} SplitOfJoin(parts: seq<string>, d: char)
    requires |parts| > 0
    requires forall i :: 0 <= i < |parts| ==> d !in parts[i]
    ensures SplitOn(Join(parts, d), d) == parts
    decreases |parts|
  {
    var head := parts[0];
    if |parts| == 1 {
      SplitOnPrefix(head, [], d);
      assert head + [] == head;
      assert SplitOn([], d) == [[]];
      assert SplitOn(head, d) == [head];
    } else {
      var tail := Join(parts[1..], d);
      var dt := [d] + tail;
      SplitOfJoin(parts[1..], d);
      SplitOnPrefix(head, dt, d);
      assert Join(parts, d) == head + dt;
      assert dt[1..] == tail;
      assert SplitOn(dt, d) == [[]] + parts[1..];
      assert SplitOn(dt, d)[0] == [];
      assert SplitOn(dt, d)[1..] == parts[1..];
      assert head + [] == head;
      assert parts == [head] + parts[1..];
    }
  }

  // ---------------------------------------------------------------------------
  // Decimal integers: Python's `int(s)` on ASCII digits, and `str(n)`
  // ---------------------------------------------------------------------------

  predicate IsDigit(c: char) {
    '0' <= c <= '9'
  }

  /** A non-empty string of ASCII decimal digits (leading zeros allowed, as `int()` allows them). */
  predicate IsDecimal(s: string) {
    |s| > 0 && forall i :: 0 <= i < |s| ==> IsDigit(s[i])
  }

  function DigitValue(c: char): (v: nat)
    requires IsDigit(c)
    ensures v < 10
  {
    (c as int) - ('0' as int)
  }

  function DigitChar(v: nat): (c: char)
    requires v < 10
    ensures IsDigit(c) && DigitValue(c) == v
  {
    ('0' as int + v) as char
  }

  /** The value of a digit string read most significant digit first. */
  function DecimalValue(s: string): nat
    requires forall i :: 0 <= i < |s| ==> IsDigit(s[i])
  {
    if s == [] then 0 else 10 * DecimalValue(s[..|s| - 1]) + DigitValue(s[|s| - 1])
  }

  /** `int(s)` restricted to digit strings: the value, or None where Python raises ValueError. */
  function ParseInt(s: string): (r: Option<nat>)
    ensures r.Some? <==> IsDecimal(s)
  {
    if IsDecimal(s) then Some(DecimalValue(s)) else None
  }

  /** `str(n)`: the shortest decimal spelling of n. */
  function Decimal(n: nat): (s: string)
    ensures IsDecimal(s)
    ensures DELIMITER !in s
    ensures |s| == 1 || s[0] != '0'
  {
    if n < 10 then [DigitChar(n)] else Decimal(n / 10) + [DigitChar(n % 10)]
  }

  /** Reading back the decimal spelling of n gives n. */
  lemma {:induction false} ParseIntOfDecimal(n: nat)
    ensures ParseInt(Decimal(n)) == Some(n)
    decreases n
  {
    var s := Decimal(n);
    if n < 10 {
      assert s[..0] == [];
      assert DecimalValue(s) == 10 * DecimalValue([]) + DigitValue(DigitChar(n));
    } else {
      ParseIntOfDecimal(n / 10);
      assert s[..|s| - 1] == Decimal(n / 10);
      assert s[|s| - 1] == DigitChar(n % 10);
      assert DecimalValue(s) == 10 * (n / 10) + n % 10;
    }
  }

  /** Leading zeros do not change the value: `int("007") == int("7")`. */
  lemma {:induction false} LeadingZeroIgnored(s: string)
    requires IsDecimal(s)
    ensures ParseInt("0" + s) == ParseInt(s)
    decreases |s|
  {
    var z := "0" + s;
    assert IsDecimal(z) by {
      assert forall i :: 0 < i < |z| ==> z[i] == s[i - 1];
    }
    if |s| > 1 {
      var init := s[..|s| - 1];
      LeadingZeroIgnored(init);
      assert z[..|z| - 1] == "0" + init;
      assert z[|z| - 1] == s[|s| - 1];
    } else {
      assert z == ['0', s[0]];
      assert z[..1] == "0";
      assert "0"[..0] == [];
      assert s[..0] == [];
      assert DecimalValue("0") == 0;
      assert DecimalValue(z) == DigitValue(s[0]);
      assert DecimalValue(s) == DigitValue(s[0]);
    }
  }

  // ---------------------------------------------------------------------------
  // Sample file names
  // ---------------------------------------------------------------------------

  /** The three integers a sample file name encodes, in the order they are written. */
  datatype Fields = Fields(sample: nat, fold: nat, category: nat)

  /** Why a name does not parse: the unpack of the split or an `int()` call raises ValueError. */
  datatype ParseError =
    | WrongFieldCount(count: nat)
    | NotAnInteger(field: string)

  /** The pieces of a file name the loader unpacks into sample, fold and category. */
  function NameParts(name: string): (parts: seq<string>)
    ensures |parts| > 0
  {
    SplitOn(Stem(name), DELIMITER)
  }

  /**
   * `sample, fold, category = file[:-4].split('-')` followed by `int()` of each
   * field, left to right. Succeeds exactly when the stem has three pieces that
   * are all decimal; otherwise reports the first failure Python would raise.
   */
  function ParseName(name: string): (r: Result<Fields, ParseError>)
    ensures r.Success? <==>
      |NameParts(name)| == 3 && forall i :: 0 <= i < 3 ==> IsDecimal(NameParts(name)[i])
    ensures r.Success? ==>
      && ParseInt(NameParts(name)[0]) == Some(r.value.sample)
      && ParseInt(NameParts(name)[1]) == Some(r.value.fold)
      && ParseInt(NameParts(name)[2]) == Some(r.value.category)
    ensures r.Failure? && r.error.WrongFieldCount? ==> r.error.count == |NameParts(name)| != 3
    ensures |NameParts(name)| != 3 ==> r == Failure(WrongFieldCount(|NameParts(name)|))
    ensures |NameParts(name)| == 3 && r.Failure? ==>
      exists i :: 0 <= i < 3 && r == Failure(NotAnInteger(NameParts(name)[i])) && !IsDecimal(NameParts(name)[i])
        && forall j :: 0 <= j < i ==> IsDecimal(NameParts(name)[j])
  {
    var parts := NameParts(name);
    if |parts| != 3 then Failure(WrongFieldCount(|parts|))
    else
      match (ParseInt(parts[0]), ParseInt(parts[1]), ParseInt(parts[2]))
      case (None, _, _) => Failure(NotAnInteger(parts[0]))
      case (Some(_), None, _) => Failure(NotAnInteger(parts[1]))
      case (Some(_), Some(_), None) => Failure(NotAnInteger(parts[2]))
      case (Some(n), Some(f), Some(c)) => Success(Fields(n, f, c))
  }

  /**
   * Soundness of a successful parse: the stem is exactly three decimal
   * strings joined by dashes, and the fields are their values.
   */
  lemma ParsedStem(name: string)
    requires ParseName(name).Success?
    ensures var parts := NameParts(name);
      && Stem(name) == parts[0] + [DELIMITER] + parts[1] + [DELIMITER] + parts[2]
      && (forall i :: 0 <= i < 3 ==> IsDecimal(parts[i]))
      && ParseName(name).value == Fields(DecimalValue(parts[0]), DecimalValue(parts[1]), DecimalValue(parts[2]))
  {
    var parts := NameParts(name);
    SplitOnJoins(Stem(name), DELIMITER);
    assert parts[1..][1..] == [parts[2]];
    assert Join(parts[1..], DELIMITER) == parts[1] + [DELIMITER] + parts[2];
    assert Join(parts, DELIMITER) == parts[0] + [DELIMITER] + (parts[1] + [DELIMITER] + parts[2]);
  }

  /** The stem of the file name that encodes the given fields, as the data generator writes it. */
  function FormatStem(fields: Fields): string {
    Decimal(fields.sample) + [DELIMITER] + Decimal(fields.fold) + [DELIMITER] + Decimal(fields.category)
  }

  /** Round trip: any name `<n>-<f>-<c>` plus a four-character extension parses to `(n, f, c)`. */
  lemma ParseFormattedName(fields: Fields, ext: string)
    requires |ext| == EXTENSION_LENGTH
    ensures ParseName(FormatStem(fields) + ext) == Success(fields)
  {
    var parts := [Decimal(fields.sample), Decimal(fields.fold), Decimal(fields.category)];
    StemOfExtended(FormatStem(fields), ext);
    assert Join(parts, DELIMITER) == FormatStem(fields) by {
      var a, b, c := parts[0], parts[1], parts[2];
      assert parts[1..][1..] == [c];
      assert Join(parts[1..], DELIMITER) == b + [DELIMITER] + c;
      assert Join(parts, DELIMITER) == a + [DELIMITER] + (b + [DELIMITER] + c);
    }
    SplitOfJoin(parts, DELIMITER);
    ParseIntOfDecimal(fields.sample);
    ParseIntOfDecimal(fields.fold);
    ParseIntOfDecimal(fields.category);
  }
}

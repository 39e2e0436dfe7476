/**
 * The pieces of Python's string handling that the recipe parser relies on:
 * `str.strip()`, `str.split(sep)`, base-10 `int(text)` and, as the inverse of
 * the last, `str(n)`.
 */
module Text {
  import opened Wrappers

  /** The two whitespace sets of the Python operations modelled here. */
  datatype Blanks =
    | StripBlanks  // `str.strip()`: the ASCII characters `str.isspace()` accepts
    | IntBlanks    // `int()` on ASCII text: only the C-locale white space

  /** Tab, line feed, vertical tab, form feed, carriage return and space are
      blanks for both; the four information separators (28 to 31) only for
      `str.strip()`. */
  predicate IsBlank(blanks: Blanks, c: char) {
    var n := c as int;
    9 <= n <= 13 || n == 32 || (blanks == StripBlanks && 28 <= n <= 31)
  }

  /** What `str.strip()` removes. */
  predicate IsSpace(c: char) {
    IsBlank(StripBlanks, c)
  }

  /** `s` without its leading blanks. */
  function TrimStart(s: string, blanks: Blanks): string {
    if |s| > 0 && IsBlank(blanks, s[0]) then TrimStart(s[1..], blanks) else s
  }

  /** `s` without its trailing blanks. */
  function TrimEnd(s: string, blanks: Blanks): string {
    if |s| > 0 && IsBlank(blanks, s[|s| - 1]) then TrimEnd(s[..|s| - 1], blanks) else s
  }

  /** `TrimStart` removes the blank run at the start of `s` and nothing more:
      the result is a suffix of `s` that is empty or starts with a
      non-blank. */
  lemma {:induction false} TrimStartSuffix(s: string, blanks: Blanks)
    ensures |TrimStart(s, blanks)| <= |s| && TrimStart(s, blanks) == s[|s| - |TrimStart(s, blanks)|..]
    ensures forall i | 0 <= i < |s| - |TrimStart(s, blanks)| :: IsBlank(blanks, s[i])
    ensures TrimStart(s, blanks) == [] || !IsBlank(blanks, TrimStart(s, blanks)[0])
  {
    if |s| > 0 && IsBlank(blanks, s[0]) {
      TrimStartSuffix(s[1..], blanks);
    }
  }

  /** `TrimEnd` removes the blank run at the end of `s` and nothing more: the
      result is a prefix of `s` that is empty or ends with a non-blank. */
  lemma {:induction false} TrimEndPrefix(s: string, blanks: Blanks)
    ensures |TrimEnd(s, blanks)| <= |s| && TrimEnd(s, blanks) == s[..|TrimEnd(s, blanks)|]
    ensures forall i | |TrimEnd(s, blanks)| <= i < |s| :: IsBlank(blanks, s[i])
    ensures TrimEnd(s, blanks) == [] || !IsBlank(blanks, TrimEnd(s, blanks)[|TrimEnd(s, blanks)| - 1])
  {
    if |s| > 0 && IsBlank(blanks, s[|s| - 1]) {
      TrimEndPrefix(s[..|s| - 1], blanks);
    }
  }

  /** `s` without blanks at either end. */
  function Trim(s: string, blanks: Blanks): string {
    TrimEnd(TrimStart(s, blanks), blanks)
  }

  /** Python's `str.strip()` without argument. */
  function Strip(s: string): string {
    Trim(s, StripBlanks)
  }

  /** The strip of a line is empty exactly when the line is blank, and
      otherwise neither starts nor ends with whitespace. */
  lemma StripSpec(s: string)
    ensures Strip(s) == [] <==> forall i | 0 <= i < |s| :: IsSpace(s[i])
    ensures Strip(s) != [] ==> !IsSpace(Strip(s)[0]) && !IsSpace(Strip(s)[|Strip(s)| - 1])
  {
    var t := TrimStart(s, StripBlanks);
    TrimStartSuffix(s, StripBlanks);
    TrimEndPrefix(t, StripBlanks);
    assert t != [] ==> s[|s| - |t|] == t[0];
  }

  /** A string that neither starts nor ends with a blank is its own trim. */
  lemma TrimUnchanged(s: string, blanks: Blanks)
    requires s != [] ==> !IsBlank(blanks, s[0]) && !IsBlank(blanks, s[|s| - 1])
    ensures Trim(s, blanks) == s
  {
  }

  /** `sep` occurs in `s` at position `i`. */
  predicate OccursAt(s: string, sep: string, i: nat) {
    i + |sep| <= |s| && s[i..i + |sep|] == sep
  }

  /** Python's `s.split(sep)` for a non-empty separator: the fields between
      the occurrences of `sep`, found from left to right without overlap. */
  function Split(s: string, sep: string): (r: seq<string>)
    requires sep != []
    ensures |r| >= 1
    decreases |s|
  {
    if |s| < |sep| then [s]
    else if OccursAt(s, sep, 0) then [[]] + Split(s[|sep|..], sep)
    else
      var rest := Split(s[1..], sep);
      [[s[0]] + rest[0]] + rest[1..]
  }

  /** Python's `sep.join(parts)`. */
  function Join(parts: seq<string>, sep: string): string
    requires |parts| >= 1
  {
    if |parts| == 1 then parts[0] else parts[0] + sep + Join(parts[1..], sep)
  }

  lemma JoinConsChar(c: char, parts: seq<string>, sep: string)
    requires |parts| >= 1
    ensures Join([[c] + parts[0]] + parts[1..], sep) == [c] + Join(parts, sep)
  {
    var p := [[c] + parts[0]] + parts[1..];
    if |parts| > 1 {
      assert p[1..] == parts[1..];
    }
  }

  /** Splitting loses nothing: joining the fields with the separator gives
      back the original string. */
  lemma {:induction false} SplitJoin(s: string, sep: string)
    requires sep != []
    ensures Join(Split(s, sep), sep) == s
    decreases |s|
  {
    if |s| < |sep| {
    } else if OccursAt(s, sep, 0) {
      SplitJoin(s[|sep|..], sep);
      var rest := Split(s[|sep|..], sep);
      assert ([[]] + rest)[1..] == rest;
      assert s == s[..|sep|] + s[|sep|..];
    } else {
      var rest := Split(s[1..], sep);
      SplitJoin(s[1..], sep);
      JoinConsChar(s[0], rest, sep);
      assert s == [s[0]] + s[1..];
    }
  }

  /** The first field ends at the first occurrence of the separator. */
  lemma {:induction false} SplitAtFirst(a: string, sep: string, rest: string)
    requires sep != []
    requires forall i | 0 <= i < |a| :: !OccursAt(a + sep + rest, sep, i)
    ensures Split(a + sep + rest, sep) == [a] + Split(rest, sep)
    decreases |a|
  {
    var s := a + sep + rest;
    assert s[|a|..|a| + |sep|] == sep;
    if a == [] {
      assert OccursAt(s, sep, 0);
      assert s[|sep|..] == rest;
    } else {
      assert !OccursAt(s, sep, 0);
      var t := a[1..] + sep + rest;
      assert s[1..] == t;
      forall i | 0 <= i < |a[1..]|
        ensures !OccursAt(t, sep, i)
      {
        assert !OccursAt(s, sep, i + 1);
        assert i + |sep| <= |t| ==> t[i..i + |sep|] == s[i + 1..i + 1 + |sep|];
      }
      SplitAtFirst(a[1..], sep, rest);
      assert [a[0]] + a[1..] == a;
    }
  }

  /** A string in which the separator does not occur is a single field. */
  lemma {:induction false} SplitWithoutSeparator(s: string, sep: string)
    requires sep != []
    requires forall i | 0 <= i < |s| :: !OccursAt(s, sep, i)
    ensures Split(s, sep) == [s]
    decreases |s|
  {
    if |s| >= |sep| {
      assert !OccursAt(s, sep, 0);
      forall i | 0 <= i < |s[1..]|
        ensures !OccursAt(s[1..], sep, i)
      {
        assert !OccursAt(s, sep, i + 1);
        assert i + |sep| <= |s[1..]| ==> s[1..][i..i + |sep|] == s[i + 1..i + 1 + |sep|];
      }
      SplitWithoutSeparator(s[1..], sep);
      assert [s[0]] + s[1..] == s;
    }
  }

  predicate IsDigit(c: char) {
    '0' <= c <= '9'
  }

  predicate IsDigits(s: string) {
    s != [] && forall i | 0 <= i < |s| :: IsDigit(s[i])
  }

  /** The value of a run of decimal digits, most significant digit first. */
  function DigitsValue(s: string): nat
    requires forall i | 0 <= i < |s| :: IsDigit(s[i])
  {
    if s == [] then 0
    else
      assert IsDigit(s[|s| - 1]);
      DigitsValue(s[..|s| - 1]) * 10 + (s[|s| - 1] as int - '0' as int)
  }

  /** Python's `int(text)` in base 10: C-locale white space around, an
      optional sign, then one or more ASCII digits. Any other text has no
      value (Python raises `ValueError`). Python's configurable limit on the
      number of digits is not modelled: here a digit run of any length has a
      value. */
  function ParseInt(text: string): Option<int> {
    var t := Trim(text, IntBlanks);
    if |t| > 1 && (t[0] == '-' || t[0] == '+') && IsDigits(t[1..]) then
      var magnitude: int := DigitsValue(t[1..]);
      Some(if t[0] == '-' then -magnitude else magnitude)
    else if IsDigits(t) then
      Some(DigitsValue(t))
    else
      None
  }

  /** `int()` skips less than `str.strip()`: an information separator before
      the digits is not white space to it. */
  lemma ParseIntKeepsSeparator()
    ensures Strip("\U{1c}5") == "5"
    ensures ParseInt("\U{1c}5") == None
    ensures ParseInt(" 5\n") == Some(5)
  {
    var s := "\U{1c}5";
    assert TrimStart(s[1..], StripBlanks) == "5";
    TrimUnchanged("5", StripBlanks);
    TrimUnchanged(s, IntBlanks);
    assert !IsDigit(s[0]);
    var t := " 5\n";
    assert TrimStart(t, IntBlanks) == "5\n" by {
      assert t[1..] == "5\n";
    }
    assert TrimEnd("5\n", IntBlanks) == "5" by {
      assert "5\n"[..1] == "5";
    }
    assert DigitsValue("5") == DigitsValue("") * 10 + 5;
  }

  function DigitChar(d: nat): char
    requires d < 10
  {
    ('0' as int + d) as char
  }

  /** Decimal digits of `n`, without leading zeros. */
  function ShowNat(n: nat): (s: string)
    ensures IsDigits(s)
  {
    if n < 10 then [DigitChar(n)] else ShowNat(n / 10) + [DigitChar(n % 10)]
  }

  /** Python's `str(n)` for an integer: a minus sign for negative numbers,
      then the digits. */
  function ShowInt(n: int): (s: string)
    ensures s != [] && s[|s| - 1] != '-'
    ensures forall i | 0 <= i < |s| :: IsDigit(s[i]) || (i == 0 && s[i] == '-')
  {
    if n < 0 then "-" + ShowNat(-n) else ShowNat(n)
  }

  lemma {:induction false} ShowNatValue(n: nat)
    ensures DigitsValue(ShowNat(n)) == n
  {
    if n >= 10 {
      ShowNatValue(n / 10);
      var s := ShowNat(n);
      assert s[..|s| - 1] == ShowNat(n / 10);
    }
  }

  /** Reading back the decimal form of any integer gives that integer. The
      modelled `int()` and `str()` have no digit limit (Python's default is
      4300 digits, above which both raise). */
  lemma ParseShowInt(n: int)
    ensures ParseInt(ShowInt(n)) == Some(n)
  {
    var s := ShowInt(n);
    assert !IsBlank(IntBlanks, s[0]) && !IsBlank(IntBlanks, s[|s| - 1]);
    TrimUnchanged(s, IntBlanks);
    if n < 0 {
      var digits := ShowNat(-n);
      ShowNatValue(-n);
      assert s[1..] == digits;
    } else {
      ShowNatValue(n);
      assert s[0] != '-' && s[0] != '+';
    }
  }
}

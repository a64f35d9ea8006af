/** The parts of Python's `str` behaviour the services rely on: `str.strip()` for the
    blank-question test and `int()` / `str()` on decimal numerals for the port setting. */
module PyText {
  import opened Wrappers

  /** `c.isspace()` in Python 3: the ASCII controls TAB..CR, the separators 0x1C..0x1F,
      SPACE, NEL, NO-BREAK SPACE, and the Unicode space separators and line/paragraph
      separators. */
  predicate IsSpace(c: char) {
    var n := c as int;
    (9 <= n <= 13) || (0x1C <= n <= 0x20) || n == 0x85 || n == 0xA0 || n == 0x1680
    || (0x2000 <= n <= 0x200A) || n == 0x2028 || n == 0x2029 || n == 0x202F
    || n == 0x205F || n == 0x3000
  }

  /** Every character of `s` is whitespace (vacuously true of the empty string). */
  predicate AllSpace(s: string) {
    forall i :: 0 <= i < |s| ==> IsSpace(s[i])
  }

  /** Where `lstrip()` cuts, scanning from `i`: the index of the first character at or
      after `i` that is not whitespace, or `|s|` when there is none. */
  function SpaceEnd(s: string, i: nat): (k: nat)
    requires i <= |s|
    ensures i <= k <= |s|
    ensures forall j :: i <= j < k ==> IsSpace(s[j])
    ensures k < |s| ==> !IsSpace(s[k])
    decreases |s| - i
  {
    if i < |s| && IsSpace(s[i]) then SpaceEnd(s, i + 1) else i
  }

  /** Where `rstrip()` cuts `s[lo..e]`: the index just after its last character that is
      not whitespace, or `lo` when there is none. */
  function SpaceStart(s: string, lo: nat, e: nat): (k: nat)
    requires lo <= e <= |s|
    ensures lo <= k <= e
    ensures forall j :: k <= j < e ==> IsSpace(s[j])
    ensures lo < k ==> !IsSpace(s[k - 1])
    decreases e
  {
    if lo < e && IsSpace(s[e - 1]) then SpaceStart(s, lo, e - 1) else e
  }

  /** `s.strip()`: what lies between the whitespace at the start and the whitespace at the
      end. It is empty exactly when `s` is all whitespace, and otherwise it neither starts
      nor ends with whitespace. */
  function Strip(s: string): (r: string)
    ensures r == [] <==> AllSpace(s)
    ensures r != [] ==> !IsSpace(r[0]) && !IsSpace(r[|r| - 1])
  {
    var a := SpaceEnd(s, 0);
    var b := SpaceStart(s, a, |s|);
    assert a < |s| ==> a < b;
    s[a..b]
  }

  /** `strip()` keeps one slice of `s`, and everything before and after that slice is
      whitespace. */
  lemma StripSlices(s: string)
    ensures exists k :: 0 <= k <= |s| - |Strip(s)| && Strip(s) == s[k..k + |Strip(s)|] &&
                        AllSpace(s[..k]) && AllSpace(s[k + |Strip(s)|..])
  {
    var a := SpaceEnd(s, 0);
    var b := SpaceStart(s, a, |s|);
    assert Strip(s) == s[a..b];
    assert AllSpace(s[..a]) by {
      forall j | 0 <= j < a ensures IsSpace(s[..a][j]) {
        assert s[..a][j] == s[j];
      }
    }
    assert AllSpace(s[b..]) by {
      forall j | 0 <= j < |s| - b ensures IsSpace(s[b..][j]) {
        assert s[b..][j] == s[b + j];
      }
    }
  }

  /** A string with no whitespace at either end is its own `strip()`. */
  lemma StripOfTrimmed(s: string)
    requires s != [] && !IsSpace(s[0]) && !IsSpace(s[|s| - 1])
    ensures Strip(s) == s
  {
    assert SpaceEnd(s, 0) == 0;
    assert SpaceStart(s, 0, |s|) == |s|;
  }

  predicate IsDigit(c: char) {
    '0' <= c <= '9'
  }

  function DigitValue(c: char): (d: nat)
    ensures d < 10
  {
    if IsDigit(c) then c as int - '0' as int else 0
  }

  function DigitChar(d: nat): (c: char)
    requires d < 10
    ensures IsDigit(c) && DigitValue(c) == d
  {
    ('0' as int + d) as char
  }

  /** The body of a base-10 literal that `int()` accepts after the sign: digits, where a
      single underscore may separate two digits. */
  predicate IsNumeral(s: string) {
    && s != []
    && IsDigit(s[0]) && IsDigit(s[|s| - 1])
    && (forall i :: 0 <= i < |s| ==> IsDigit(s[i]) || s[i] == '_')
    && (forall i :: 0 <= i < |s| - 1 ==> s[i] == '_' ==> s[i + 1] != '_')
  }

  /** The number a numeral denotes, reading digits left to right and skipping underscores. */
  function NumeralValue(s: string): nat {
    if s == [] then 0
    else if s[|s| - 1] == '_' then NumeralValue(s[..|s| - 1])
    else NumeralValue(s[..|s| - 1]) * 10 + DigitValue(s[|s| - 1])
  }

  /** The separators U+001C..U+001F: `isspace()` is true of them, but `int()` does not
      skip them. */
  predicate IsSeparatorControl(c: char) {
    0x1C <= c as int <= 0x1F
  }

  /** `int(s)` for a string `s` in base 10: whitespace around the number is ignored, one
      optional sign, then a numeral; anything else raises `ValueError` (here: `None`).
      The whitespace `int()` skips is `isspace()` without U+001C..U+001F, so a string
      holding one of those never parses. Non-ASCII decimal digits, which Python also
      accepts, are not modelled. */
  function ParseInt(s: string): (r: Option<int>)
    ensures AllSpace(s) ==> r == None
    ensures forall i :: 0 <= i < |s| && IsSeparatorControl(s[i]) ==> r == None
  {
    if exists i :: 0 <= i < |s| && IsSeparatorControl(s[i]) then None
    else
    var t := Strip(s);
    if t != [] && (t[0] == '+' || t[0] == '-') then
      var body := t[1..];
      if IsNumeral(body) then
        var v: int := NumeralValue(body);
        Some(if t[0] == '-' then -v else v)
      else None
    else if IsNumeral(t) then Some(NumeralValue(t))
    else None
  }

  /** `str(n)` for a natural number: its shortest decimal numeral. */
  function ShowNat(n: nat): (s: string)
    ensures s != [] && forall i :: 0 <= i < |s| ==> IsDigit(s[i])
  {
    if n < 10 then [DigitChar(n)] else ShowNat(n / 10) + [DigitChar(n % 10)]
  }

  /** `str(n)` for an integer: a minus sign before the numeral of a negative number. */
  function ShowInt(n: int): string {
    if n < 0 then "-" + ShowNat(-n) else ShowNat(n)
  }

  lemma {:induction false} NumeralValueOfShowNat(n: nat)
    ensures NumeralValue(ShowNat(n)) == n
  {
    var s := ShowNat(n);
    if n >= 10 {
      assert s[..|s| - 1] == ShowNat(n / 10);
      NumeralValueOfShowNat(n / 10);
    } else {
      assert s[..|s| - 1] == [];
    }
  }

  lemma {:induction false} ShowNatIsNumeral(n: nat)
    ensures IsNumeral(ShowNat(n))
  {
  }

  lemma {:induction false} ParseNumeral(d: string)
    requires IsNumeral(d)
    ensures ParseInt(d) == Some(NumeralValue(d))
  {
    assert forall i :: 0 <= i < |d| ==> !IsSeparatorControl(d[i]);
    StripOfTrimmed(d);
  }

  lemma {:induction false} ParseNegativeNumeral(d: string)
    requires IsNumeral(d)
    ensures ParseInt("-" + d) == Some(0 - NumeralValue(d) as int)
  {
    var t := "-" + d;
    assert forall i :: 0 <= i < |t| ==> !IsSeparatorControl(t[i]) by {
      forall i | 0 < i < |t| ensures !IsSeparatorControl(t[i]) {
        assert t[i] == d[i - 1];
      }
    }
    assert t[|t| - 1] == d[|d| - 1];
    StripOfTrimmed(t);
    assert t[1..] == d;
  }

  /** `int(str(n)) == n`: the parser reads back every integer as Python prints it. */
  lemma {:induction false} ParseShowInt(n: int)
    ensures ParseInt(ShowInt(n)) == Some(n)
  {
    var m: nat := if n < 0 then -n else n;
    NumeralValueOfShowNat(m);
    ShowNatIsNumeral(m);
    if n < 0 {
      ParseNegativeNumeral(ShowNat(m));
    } else {
      ParseNumeral(ShowNat(m));
    }
  }
}

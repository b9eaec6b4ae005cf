/** The few Python string operations the core relies on: `str.lower`,
    `str.title`, `str.replace`, `str.startswith`, `str(int)`, `int(str)` and
    the `03d` format specification. Case mapping covers ASCII letters only. */
module Text {

  import opened Wrappers

  // ---------------------------------------------------------------------
  // Case mapping (`str.lower`, `str.title`)
  // ---------------------------------------------------------------------

  predicate IsUpperAscii(c: char) { 'A' <= c <= 'Z' }

  predicate IsLowerAscii(c: char) { 'a' <= c <= 'z' }

  /** A "cased" character in Python's sense, restricted to ASCII letters. */
  predicate IsCased(c: char) { IsUpperAscii(c) || IsLowerAscii(c) }

  function LowerChar(c: char): (d: char)
    ensures !IsUpperAscii(d)
    ensures !IsUpperAscii(c) ==> d == c
    ensures IsCased(c) <==> IsCased(d)
  {
    if IsUpperAscii(c) then (c as int + 32) as char else c
  }

  function UpperChar(c: char): (d: char)
    ensures !IsLowerAscii(d)
    ensures !IsLowerAscii(c) ==> d == c
    ensures LowerChar(d) == LowerChar(c)
  {
    if IsLowerAscii(c) then (c as int - 32) as char else c
  }

  /** `s.lower()`: no upper-case letter survives, and every other character
      is left where it was. */
  function Lower(s: string): (r: string)
    ensures |r| == |s|
    ensures forall i :: 0 <= i < |r| ==> !IsUpperAscii(r[i])
    ensures forall i :: 0 <= i < |s| && !IsUpperAscii(s[i]) ==> r[i] == s[i]
    ensures forall i :: 0 <= i < |s| ==> r[i] == LowerChar(s[i])
  {
    if s == [] then [] else [LowerChar(s[0])] + Lower(s[1..])
  }

  /** `str.title()` with the case state carried along: a cased character
      is upper-cased when it starts a word (the previous character was not
      cased) and lower-cased otherwise; every other character is kept. */
  function TitleFrom(s: string, inWord: bool): (r: string)
    ensures |r| == |s|
  {
    if s == [] then []
    else if IsCased(s[0]) then
      [if inWord then LowerChar(s[0]) else UpperChar(s[0])] + TitleFrom(s[1..], true)
    else
      [s[0]] + TitleFrom(s[1..], false)
  }

  function Title(s: string): (r: string)
    ensures |r| == |s|
  {
    TitleFrom(s, false)
  }

  /** Title-casing changes case only: folded to lower case, the result is
      the input folded to lower case. */
  lemma {:induction false} TitleFromFoldsLikeInput(s: string, inWord: bool)
    ensures Lower(TitleFrom(s, inWord)) == Lower(s)
  {
    if s != [] {
      TitleFromFoldsLikeInput(s[1..], IsCased(s[0]));
      var r := TitleFrom(s, inWord);
      assert r[1..] == TitleFrom(s[1..], IsCased(s[0]));
      assert Lower(r) == [LowerChar(r[0])] + Lower(r[1..]);
    }
  }

  lemma TitleFoldsLikeInput(s: string)
    ensures Lower(Title(s)) == Lower(s)
  {
    TitleFromFoldsLikeInput(s, false);
  }

  /** Every word of a title-cased string starts with an upper-case letter
      and continues in lower case. */
  lemma {:induction false} TitleFromShape(s: string, inWord: bool, i: nat)
    requires i < |s| && IsCased(s[i])
    ensures var startsWord := if i == 0 then !inWord else !IsCased(s[i - 1]);
            startsWord ==> !IsLowerAscii(TitleFrom(s, inWord)[i])
    ensures var startsWord := if i == 0 then !inWord else !IsCased(s[i - 1]);
            !startsWord ==> !IsUpperAscii(TitleFrom(s, inWord)[i])
  {
    if i > 0 {
      TitleFromShape(s[1..], IsCased(s[0]), i - 1);
      assert TitleFrom(s, inWord)[i] == TitleFrom(s[1..], IsCased(s[0]))[i - 1];
    }
  }

  // ---------------------------------------------------------------------
  // Searching and replacing
  // ---------------------------------------------------------------------

  predicate StartsWith(s: string, prefix: string) {
    |prefix| <= |s| && s[..|prefix|] == prefix
  }

  /** `s` contains `pat` starting at index `i`. */
  predicate OccursAt(s: string, pat: string, i: nat) {
    i + |pat| <= |s| && s[i..i + |pat|] == pat
  }

  /** `s.replace(pat, "")`: one left-to-right pass removing non-overlapping
      occurrences of `pat`. */
  function RemoveAll(s: string, pat: string): (r: string)
    requires |pat| > 0
    ensures |r| <= |s|
    decreases |s|
  {
    if |s| < |pat| then s
    else if s[..|pat|] == pat then RemoveAll(s[|pat|..], pat)
    else [s[0]] + RemoveAll(s[1..], pat)
  }

  /** Where `pat` does not occur, `replace` is the identity. */
  lemma {:induction false} RemoveAllAbsent(s: string, pat: string)
    requires |pat| > 0
    requires forall i: nat :: !OccursAt(s, pat, i)
    ensures RemoveAll(s, pat) == s
  {
    if |s| >= |pat| {
      assert !OccursAt(s, pat, 0);
      assert s[0..|pat|] == s[..|pat|];
      forall i: nat ensures !OccursAt(s[1..], pat, i) {
        assert !OccursAt(s, pat, i + 1);
        if i + |pat| <= |s[1..]| {
          assert s[1..][i..i + |pat|] == s[i + 1..i + 1 + |pat|];
        }
      }
      RemoveAllAbsent(s[1..], pat);
    }
  }

  /** `s.replace(a, b)` for single characters. */
  function ReplaceChar(s: string, a: char, b: char): (r: string)
    ensures |r| == |s|
    ensures a != b ==> forall i :: 0 <= i < |r| ==> r[i] != a
    ensures forall i :: 0 <= i < |s| && s[i] != a ==> r[i] == s[i]
    ensures forall i :: 0 <= i < |s| && s[i] == a ==> r[i] == b
  {
    if s == [] then [] else [if s[0] == a then b else s[0]] + ReplaceChar(s[1..], a, b)
  }

  // ---------------------------------------------------------------------
  // Decimal integers (`str(n)`, `int(s)`, `f"{n:03d}"`)
  // ---------------------------------------------------------------------

  predicate IsDigit(c: char) { '0' <= c <= '9' }

  predicate AllDigits(s: string) { forall i :: 0 <= i < |s| ==> IsDigit(s[i]) }

  function DigitChar(d: nat): (c: char)
    requires d < 10
    ensures IsDigit(c) && c as int - '0' as int == d
  {
    (d + '0' as int) as char
  }

  function DigitValue(c: char): nat
    requires IsDigit(c)
  {
    c as int - '0' as int
  }

  /** The decimal digits of `n`, most significant first, without leading zeros. */
  function Digits(n: nat): (r: string)
    ensures |r| > 0 && AllDigits(r)
    ensures |r| > 1 ==> r[0] != '0'
  {
    if n < 10 then [DigitChar(n)] else Digits(n / 10) + [DigitChar(n % 10)]
  }

  /** The number a string of digits denotes. */
  function DigitsValue(s: string): nat
    requires AllDigits(s)
  {
    if s == [] then 0 else DigitsValue(s[..|s| - 1]) * 10 + DigitValue(s[|s| - 1])
  }

  lemma {:induction false} DigitsRoundTrip(n: nat)
    ensures DigitsValue(Digits(n)) == n
  {
    var d := Digits(n);
    if n >= 10 {
      DigitsRoundTrip(n / 10);
      assert d[..|d| - 1] == Digits(n / 10);
    }
  }

  function Zeros(k: nat): (r: string)
    ensures |r| == k && AllDigits(r)
    ensures forall i :: 0 <= i < k ==> r[i] == '0'
  {
    if k == 0 then "" else "0" + Zeros(k - 1)
  }

  lemma {:induction false} ZerosValue(k: nat)
    ensures DigitsValue(Zeros(k)) == 0
  {
    if k > 0 {
      var z := Zeros(k);
      assert z[..k - 1] == Zeros(k - 1);
      ZerosValue(k - 1);
    }
  }

  /** Leading zeros do not change the value of a digit string. */
  lemma {:induction false} LeadingZerosValue(k: nat, s: string)
    requires AllDigits(s)
    ensures AllDigits(Zeros(k) + s)
    ensures DigitsValue(Zeros(k) + s) == DigitsValue(s)
  {
    if s == [] {
      assert Zeros(k) + s == Zeros(k);
      ZerosValue(k);
    } else {
      var t := Zeros(k) + s;
      assert t[..|t| - 1] == Zeros(k) + s[..|s| - 1];
      LeadingZerosValue(k, s[..|s| - 1]);
    }
  }

  /** `str(n)` for a Python int. */
  function IntToString(n: int): (r: string)
    ensures |r| > 0
  {
    if n < 0 then "-" + Digits(-n) else Digits(n)
  }

  /** `int(s)` for the forms a JSON key written by `str(n)` takes: an
      optional minus sign followed by decimal digits. Anything else raises. */
  function ParseInt(s: string): (r: Option<int>)
    ensures r.Some? ==> |s| > 0
  {
    if |s| > 0 && AllDigits(s) then Some(DigitsValue(s))
    else if |s| > 1 && s[0] == '-' && AllDigits(s[1..]) then Some(-(DigitsValue(s[1..]) as int))
    else None
  }

  lemma ParseIntToString(n: int)
    ensures ParseInt(IntToString(n)) == Some(n)
  {
    if n < 0 {
      var s := IntToString(n);
      assert s[1..] == Digits(-n);
      assert !IsDigit(s[0]);
      DigitsRoundTrip(-n);
    } else {
      DigitsRoundTrip(n);
    }
  }

  /** Left-pad with zeros to at least `width` characters. */
  function ZeroPad(s: string, width: nat): (r: string)
    ensures |r| >= width && |r| >= |s|
  {
    if |s| >= width then s else Zeros(width - |s|) + s
  }

  lemma ZeroPadValue(s: string, width: nat)
    requires AllDigits(s)
    ensures AllDigits(ZeroPad(s, width)) && DigitsValue(ZeroPad(s, width)) == DigitsValue(s)
  {
    if |s| < width {
      LeadingZerosValue(width - |s|, s);
    }
  }

  /** `f"{n:03d}"`: at least three characters, the zero padding placed
      after the sign of a negative number. */
  function Format03d(n: int): (r: string)
    ensures |r| >= 3
  {
    if n < 0 then "-" + ZeroPad(Digits(-n), 2) else ZeroPad(Digits(n), 3)
  }

  lemma ParseFormat03d(n: int)
    ensures ParseInt(Format03d(n)) == Some(n)
  {
    var s := Format03d(n);
    if n < 0 {
      ZeroPadValue(Digits(-n), 2);
      DigitsRoundTrip(-n);
      assert s[1..] == ZeroPad(Digits(-n), 2);
      assert !IsDigit(s[0]);
    } else {
      ZeroPadValue(Digits(n), 3);
      DigitsRoundTrip(n);
    }
  }

  /** Distinct numbers never format to the same text. */
  lemma Format03dInjective(a: int, b: int)
    requires Format03d(a) == Format03d(b)
    ensures a == b
  {
    ParseFormat03d(a);
    ParseFormat03d(b);
  }

}

/**
 * The JavaScript string primitives the modelled code relies on: `trim()`, the
 * regex class `\s`, `toUpperCase()` / `toLowerCase()`, `startsWith`, `includes`,
 * `slice(0, n)`, `padStart`, `String(n)` for integers, `parseInt(s, 10)` and
 * `Number(s)` restricted to integer text.
 */
module JsText {
  import opened Optional

  /** ECMAScript WhiteSpace (every Zs character included) and LineTerminator:
      the characters `trim()` removes and `\s` matches. */
  predicate IsSpace(c: char) {
    || c == '\t' || c == '\n' || c == '\U{000B}' || c == '\U{000C}' || c == '\r' || c == ' '
    || c == '\U{00A0}' || c == '\U{1680}' || '\U{2000}' <= c <= '\U{200A}'
    || c == '\U{2028}' || c == '\U{2029}' || c == '\U{202F}' || c == '\U{205F}'
    || c == '\U{3000}' || c == '\U{FEFF}'
  }

  predicate AllSpace(s: string) {
    forall i :: 0 <= i < |s| ==> IsSpace(s[i])
  }

  predicate NoSpace(s: string) {
    forall i :: 0 <= i < |s| ==> !IsSpace(s[i])
  }

  /** `trimStart()`: drops the leading white space and nothing else. */
  function TrimStart(s: string): (r: string)
    ensures |r| <= |s|
    ensures r == [] || !IsSpace(r[0])
  {
    if |s| > 0 && IsSpace(s[0]) then TrimStart(s[1..]) else s
  }

  /** What `trimStart()` drops is white space, and what it keeps is a suffix. */
  lemma {:induction false} TrimStartShape(s: string)
    ensures TrimStart(s) == s[|s| - |TrimStart(s)|..]
    ensures AllSpace(s[..|s| - |TrimStart(s)|])
    decreases |s|
  {
    if |s| > 0 && IsSpace(s[0]) {
      TrimStartShape(s[1..]);
      DropFirstSpace(s, TrimStart(s[1..]));
    }
  }

  lemma DropFirstSpace(s: string, r: string)
    requires |s| > 0 && IsSpace(s[0])
    requires |r| <= |s| - 1 && r == s[1..][|s| - 1 - |r|..] && AllSpace(s[1..][..|s| - 1 - |r|])
    ensures r == s[|s| - |r|..] && AllSpace(s[..|s| - |r|])
  {
    assert s[..|s| - |r|] == [s[0]] + s[1..][..|s| - 1 - |r|];
    assert s[1..][|s| - 1 - |r|..] == s[|s| - |r|..];
  }

  /** `trimEnd()`: drops the trailing white space and nothing else. */
  function TrimEnd(s: string): (r: string)
    ensures |r| <= |s|
    ensures r == [] || !IsSpace(r[|r| - 1])
  {
    if |s| > 0 && IsSpace(s[|s| - 1]) then TrimEnd(s[..|s| - 1]) else s
  }

  /** What `trimEnd()` drops is white space, and what it keeps is a prefix. */
  lemma {:induction false} TrimEndShape(s: string)
    ensures TrimEnd(s) == s[..|TrimEnd(s)|]
    ensures AllSpace(s[|TrimEnd(s)|..])
    decreases |s|
  {
    if |s| > 0 && IsSpace(s[|s| - 1]) {
      TrimEndShape(s[..|s| - 1]);
      DropLastSpace(s, TrimEnd(s[..|s| - 1]));
    }
  }

  lemma DropLastSpace(s: string, r: string)
    requires |s| > 0 && IsSpace(s[|s| - 1])
    requires |r| <= |s| - 1 && r == s[..|s| - 1][..|r|] && AllSpace(s[..|s| - 1][|r|..])
    ensures r == s[..|r|] && AllSpace(s[|r|..])
  {
    var p := s[..|s| - 1];
    assert s[|r|..] == p[|r|..] + [s[|s| - 1]];
    assert p[..|r|] == s[..|r|];
  }

  /** `trim()`. */
  function Trim(s: string): (r: string)
    ensures |r| <= |s|
    ensures r == [] || (!IsSpace(r[0]) && !IsSpace(r[|r| - 1]))
  {
    TrimEndShape(TrimStart(s));
    TrimEnd(TrimStart(s))
  }

  /** A string that neither starts nor ends with white space is left alone by `trim()`. */
  lemma TrimUntouched(s: string)
    requires s == [] || (!IsSpace(s[0]) && !IsSpace(s[|s| - 1]))
    ensures Trim(s) == s
  {
  }

  /** `trim()` gives "" exactly on the strings made only of white space. */
  lemma TrimEmpty(s: string)
    ensures Trim(s) == [] <==> AllSpace(s)
  {
    var t := TrimStart(s);
    TrimStartShape(s);
    TrimEndShape(t);
    if AllSpace(s) {
      TrimStartAllSpace(s);
    }
    if Trim(s) == [] {
      assert AllSpace(t[0..]);
      assert s == s[..|s| - |t|] + t;
    }
  }

  lemma TrimIdempotent(s: string)
    ensures Trim(Trim(s)) == Trim(s)
  {
    TrimUntouched(Trim(s));
  }

  /** White space added on either side does not change the result of `trim()`. */
  lemma TrimPadded(a: string, s: string, b: string)
    requires AllSpace(a) && AllSpace(b)
    ensures Trim(a + (s + b)) == Trim(s)
  {
    TrimStartPadded(a, s + b);
    TrimEndOfPadded(s, b);
  }

  /** Trailing white space does not change `trimEnd(trimStart(s))`. */
  lemma TrimEndOfPadded(s: string, b: string)
    requires AllSpace(b)
    ensures TrimEnd(TrimStart(s + b)) == TrimEnd(TrimStart(s))
  {
    TrimStartAppend(s, b);
    if AllSpace(s) {
      AllSpaceAppend(s, b);
      TrimStartAllSpace(s + b);
      TrimStartAllSpace(s);
    } else {
      TrimEndPadded(TrimStart(s), b);
    }
  }

  lemma AllSpaceAppend(a: string, b: string)
    requires AllSpace(a) && AllSpace(b)
    ensures AllSpace(a + b)
  {
  }

  lemma {:induction false} TrimStartPadded(a: string, s: string)
    requires AllSpace(a)
    ensures TrimStart(a + s) == TrimStart(s)
    decreases |a|
  {
    if a != [] {
      var t := a + s;
      assert IsSpace(t[0]);
      assert t[1..] == a[1..] + s;
      assert TrimStart(t) == TrimStart(t[1..]);
      TrimStartPadded(a[1..], s);
    } else {
      assert a + s == s;
    }
  }

  lemma {:induction false} TrimStartAllSpace(s: string)
    requires AllSpace(s)
    ensures TrimStart(s) == []
    decreases |s|
  {
    if s != [] {
      TrimStartAllSpace(s[1..]);
    }
  }

  lemma {:induction false} TrimStartAppend(s: string, b: string)
    ensures TrimStart(s + b) == TrimStart(s) + b || AllSpace(s)
    decreases |s|
  {
    if s == [] {
    } else if IsSpace(s[0]) {
      assert (s + b)[0] == s[0];
      assert (s + b)[1..] == s[1..] + b;
      TrimStartAppend(s[1..], b);
    } else {
      assert (s + b)[0] == s[0];
    }
  }

  lemma {:induction false} TrimEndPadded(t: string, b: string)
    requires AllSpace(b)
    ensures TrimEnd(t + b) == TrimEnd(t)
    decreases |b|
  {
    if b != [] {
      assert (t + b)[..|t + b| - 1] == t + b[..|b| - 1];
      TrimEndPadded(t, b[..|b| - 1]);
    } else {
      assert t + b == t;
    }
  }

  /** `toUpperCase()` on one character: ASCII and the Latin-1 letters à..þ (not ÷). */
  function UpperChar(c: char): char {
    if 'a' <= c <= 'z' || ('\U{00E0}' <= c <= '\U{00FE}' && c != '\U{00F7}')
    then (c as int - 32) as char else c
  }

  /** `toLowerCase()` on one character: ASCII and the Latin-1 letters À..Þ (not ×). */
  function LowerChar(c: char): char {
    if 'A' <= c <= 'Z' || ('\U{00C0}' <= c <= '\U{00DE}' && c != '\U{00D7}')
    then (c as int + 32) as char else c
  }

  function Upper(s: string): (r: string)
    ensures |r| == |s|
    ensures forall i :: 0 <= i < |s| ==> r[i] == UpperChar(s[i])
  {
    seq(|s|, i requires 0 <= i < |s| => UpperChar(s[i]))
  }

  function Lower(s: string): (r: string)
    ensures |r| == |s|
    ensures forall i :: 0 <= i < |s| ==> r[i] == LowerChar(s[i])
  {
    seq(|s|, i requires 0 <= i < |s| => LowerChar(s[i]))
  }

  /** Upper-casing after lower-casing is the same as upper-casing: case is forgotten. */
  lemma UpperOfLower(s: string)
    ensures Upper(Lower(s)) == Upper(s)
  {
  }

  predicate IsLower(s: string) {
    forall i :: 0 <= i < |s| ==> LowerChar(s[i]) == s[i]
  }

  lemma LowerIsLower(s: string)
    ensures IsLower(Lower(s))
  {
  }

  lemma IsLowerFixed(s: string)
    requires IsLower(s)
    ensures Lower(s) == s
  {
  }

  /** `toLowerCase().trim()` gives a string that both operations leave unchanged. */
  lemma LowerThenTrim(s: string)
    ensures Lower(Trim(Lower(s))) == Trim(Lower(s))
    ensures Trim(Trim(Lower(s))) == Trim(Lower(s))
  {
    var t := Lower(s);
    LowerIsLower(s);
    var u := TrimStart(t);
    TrimStartShape(t);
    TrimEndShape(u);
    assert IsLower(u);
    var r := TrimEnd(u);
    assert IsLower(r);
    IsLowerFixed(r);
    assert Trim(t) == r;
    TrimIdempotent(t);
  }

  /** Case mapping never turns a character into white space or back. */
  lemma CaseKeepsSpace(c: char)
    ensures IsSpace(LowerChar(c)) == IsSpace(c) && IsSpace(UpperChar(c)) == IsSpace(c)
  {
  }

  /** Case mapping leaves white space where it is, so it commutes with `trim()`. */
  lemma {:induction false} UpperKeepsSpace(s: string)
    ensures AllSpace(s) <==> AllSpace(Upper(s))
    ensures NoSpace(s) <==> NoSpace(Upper(s))
  {
    assert forall i :: 0 <= i < |s| ==> (IsSpace(s[i]) <==> IsSpace(Upper(s)[i]));
  }

  predicate StartsWith(s: string, prefix: string) {
    |prefix| <= |s| && s[..|prefix|] == prefix
  }

  /** `s.includes(sub)`. */
  predicate Contains(s: string, sub: string)
    decreases |s|
  {
    StartsWith(s, sub) || (s != [] && Contains(s[1..], sub))
  }

  /** `s.slice(0, n)` for n >= 0. */
  function Take(s: string, n: nat): (r: string)
    ensures |r| == if |s| <= n then |s| else n
    ensures r == s[..|r|]
  {
    if |s| <= n then s else s[..n]
  }

  function Repeat(c: char, k: nat): (r: string)
    ensures |r| == k
    ensures forall i :: 0 <= i < k ==> r[i] == c
  {
    seq(k, i => c)
  }

  /** `s.padStart(width, fill)` with a one-character filler. */
  function PadStart(s: string, width: nat, fill: char): (r: string)
    ensures |r| == if |s| < width then width else |s|
    ensures r == Repeat(fill, |r| - |s|) + s
  {
    if |s| < width then Repeat(fill, width - |s|) + s else s
  }

  predicate IsDigit(c: char) {
    '0' <= c <= '9'
  }

  predicate AllDigits(s: string) {
    forall i :: 0 <= i < |s| ==> IsDigit(s[i])
  }

  function DigitChar(d: nat): (c: char)
    requires d < 10
    ensures IsDigit(c)
  {
    ('0' as int + d) as char
  }

  function DigitValue(c: char): (d: nat)
    requires IsDigit(c)
    ensures d < 10 && DigitChar(d) == c
  {
    c as int - '0' as int
  }

  /** `String(n)` for a natural number: its decimal digits, without leading zeros. */
  function Dec(n: nat): (r: string)
    ensures |r| > 0 && AllDigits(r)
    ensures n >= 10 ==> r[0] != '0'
    decreases n
  {
    if n < 10 then [DigitChar(n)] else Dec(n / 10) + [DigitChar(n % 10)]
  }

  /** `String(n)` for any integer. */
  function IntStr(n: int): string {
    if n < 0 then "-" + Dec(-n) else Dec(n)
  }

  /** The value of a string of decimal digits (leading zeros allowed). */
  function DigitsValue(s: string): nat
    requires AllDigits(s)
  {
    if s == [] then 0 else DigitsValue(s[..|s| - 1]) * 10 + DigitValue(s[|s| - 1])
  }

  /** Reading back the digits `Dec` writes gives the number again. */
  lemma {:induction false} DecValue(n: nat)
    ensures DigitsValue(Dec(n)) == n
    decreases n
  {
    if n >= 10 {
      DecValue(n / 10);
      var d := Dec(n);
      assert d[..|d| - 1] == Dec(n / 10);
    }
  }

  /** Leading zeros do not change the value of a digit string. */
  lemma {:induction false} LeadingZerosValue(k: nat, s: string)
    requires AllDigits(s)
    ensures AllDigits(Repeat('0', k) + s)
    ensures DigitsValue(Repeat('0', k) + s) == DigitsValue(s)
    decreases |s| + k
  {
    var z := Repeat('0', k) + s;
    if s != [] {
      assert z[..|z| - 1] == Repeat('0', k) + s[..|s| - 1];
      LeadingZerosValue(k, s[..|s| - 1]);
    } else if k > 0 {
      assert z[..|z| - 1] == Repeat('0', k - 1) + s;
      LeadingZerosValue(k - 1, s);
    }
  }

  /** The longest prefix of `s` made of decimal digits. */
  function LeadingDigits(s: string): (r: string)
    ensures |r| <= |s| && AllDigits(r) && r == s[..|r|]
    ensures |r| == |s| || !IsDigit(s[|r|])
  {
    if s != [] && IsDigit(s[0]) then [s[0]] + LeadingDigits(s[1..]) else []
  }

  lemma {:induction false} LeadingDigitsAll(s: string)
    requires AllDigits(s)
    ensures LeadingDigits(s) == s
  {
    if s != [] {
      LeadingDigitsAll(s[1..]);
    }
  }

  /** `parseInt(s, 10)`: leading white space, an optional sign, then the longest run of
      digits; `None` stands for NaN (no digit at all). */
  function ParseInt(s: string): Option<int> {
    var t := TrimStart(s);
    var negative := t != [] && t[0] == '-';
    var body := if t != [] && (t[0] == '-' || t[0] == '+') then t[1..] else t;
    var digits := LeadingDigits(body);
    if digits == [] then None
    else if negative then Some(-(DigitsValue(digits) as int))
    else Some(DigitsValue(digits))
  }

  /** `parseInt` reads back the zero-padded decimal text of a natural number. */
  lemma ParseIntPadded(n: nat, width: nat)
    ensures ParseInt(PadStart(Dec(n), width, '0')) == Some(n)
  {
    var d := Dec(n);
    var p := PadStart(d, width, '0');
    LeadingZerosValue(|p| - |d|, d);
    DecValue(n);
    ParseIntDigits(p);
  }

  /** On a non-empty string of digits `parseInt` is the value of the digits. */
  lemma ParseIntDigits(p: string)
    requires p != [] && AllDigits(p)
    ensures ParseInt(p) == Some(DigitsValue(p))
  {
    assert !IsSpace(p[0]);
    assert TrimStart(p) == p;
    LeadingDigitsAll(p);
  }

  /** `Number(s)` restricted to integer text: surrounding white space is ignored, blank
      text is 0, an optional sign and decimal digits give their value; `None` stands
      for NaN. */
  function ToNumber(s: string): Option<int> {
    var t := Trim(s);
    if t == [] then Some(0)
    else
      var negative := t[0] == '-';
      var body := if t[0] == '-' || t[0] == '+' then t[1..] else t;
      if body == [] || !AllDigits(body) then None
      else if negative then Some(-(DigitsValue(body) as int))
      else Some(DigitsValue(body))
  }

  /** `Number(String(n))` is `n` for every natural number. */
  lemma ToNumberDec(n: nat)
    ensures ToNumber(Dec(n)) == Some(n)
  {
    var d := Dec(n);
    assert !IsSpace(d[0]) && !IsSpace(d[|d| - 1]);
    TrimUntouched(d);
    DecValue(n);
  }
}

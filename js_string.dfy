/** The two JavaScript string operations the screens rely on:
    `String.prototype.trim` and the decimal rendering of a number inside a
    template literal (`user-${n}`). */
module JsString {

  /** The code points ECMAScript counts as WhiteSpace or LineTerminator,
      which are exactly the characters `trim` removes. */
  predicate IsSpace(c: char): (b: bool)
    ensures c < '\U{0080}' ==> (b <==> c == ' ' || '\t' <= c <= '\r')
  {
    || c == '\t' || c == '\n' || c == '\U{000B}' || c == '\U{000C}' || c == '\r'
    || c == ' ' || c == '\U{00A0}' || c == '\U{1680}'
    || ('\U{2000}' <= c <= '\U{200A}')
    || c == '\U{2028}' || c == '\U{2029}' || c == '\U{202F}' || c == '\U{205F}'
    || c == '\U{3000}' || c == '\U{FEFF}'
  }

  predicate AllSpace(s: string) {
    forall i :: 0 <= i < |s| ==> IsSpace(s[i])
  }

  /** Every character of `s` from index `i` up to (not including) `j` is white space. */
  predicate SpaceBetween(s: string, i: int, j: int)
    requires 0 <= i <= j <= |s|
  {
    forall k :: i <= k < j ==> IsSpace(s[k])
  }

  /** Drops the leading white space. */
  function TrimStart(s: string): string {
    if |s| > 0 && IsSpace(s[0]) then TrimStart(s[1..]) else s
  }

  /** Drops the trailing white space. */
  function TrimEnd(s: string): string {
    if |s| > 0 && IsSpace(s[|s| - 1]) then TrimEnd(s[..|s| - 1]) else s
  }

  /** What `TrimStart` drops is all white space, and what it keeps is a
      suffix that does not start with white space. */
  lemma {:induction false} TrimStartCut(s: string)
    ensures |TrimStart(s)| <= |s| && TrimStart(s) == s[|s| - |TrimStart(s)|..]
    ensures SpaceBetween(s, 0, |s| - |TrimStart(s)|)
    ensures TrimStart(s) != [] ==> !IsSpace(TrimStart(s)[0])
  {
    if |s| > 0 && IsSpace(s[0]) {
      TrimStartCut(s[1..]);
      assert s[1..][|s| - 1 - |TrimStart(s)|..] == s[|s| - |TrimStart(s)|..];
      assert forall k :: 1 <= k < |s| - |TrimStart(s)| ==> s[k] == s[1..][k - 1];
    }
  }

  /** What `TrimEnd` drops is all white space, and what it keeps is a
      prefix that does not end with white space. */
  lemma {:induction false} TrimEndCut(s: string)
    ensures |TrimEnd(s)| <= |s| && TrimEnd(s) == s[..|TrimEnd(s)|]
    ensures SpaceBetween(s, |TrimEnd(s)|, |s|)
    ensures TrimEnd(s) != [] ==> !IsSpace(TrimEnd(s)[|TrimEnd(s)| - 1])
  {
    if |s| > 0 && IsSpace(s[|s| - 1]) {
      TrimEndCut(s[..|s| - 1]);
      assert s[..|s| - 1][..|TrimEnd(s)|] == s[..|TrimEnd(s)|];
      assert forall k :: |TrimEnd(s)| <= k < |s| - 1 ==> s[k] == s[..|s| - 1][k];
    }
  }

  /** `s[a..b]` is what is left of `s` once the white space at both ends is
      cut off: everything outside is white space, and a non-empty rest starts
      and ends with a character that is not. */
  predicate TrimAt(s: string, a: int, b: int) {
    && 0 <= a <= b <= |s|
    && SpaceBetween(s, 0, a) && SpaceBetween(s, b, |s|)
    && (a < b ==> !IsSpace(s[a]) && !IsSpace(s[b - 1]))
  }

  /** `s.trim()`: never longer than `s`, and a result that is not blank
      neither starts nor ends with white space. `TrimCut` and `TrimAtUnique`
      pin the result down completely. */
  function Trim(s: string): (r: string)
    ensures |r| <= |s|
    ensures r != [] ==> IsTrimmed(r)
  {
    TrimStartCut(s);
    TrimEndCut(TrimStart(s));
    TrimEnd(TrimStart(s))
  }

  /** `trim` cuts exactly the white space at both ends: its result is a
      slice of the input and the cut is a `TrimAt` cut. */
  lemma TrimCut(s: string)
    ensures exists a, b :: TrimAt(s, a, b) && Trim(s) == s[a..b]
  {
    var t := TrimStart(s);
    TrimStartCut(s);
    TrimEndCut(t);
    var r := TrimEnd(t);
    var a := |s| - |t|;
    assert r == s[a..a + |r|];
    assert forall k :: a + |r| <= k < |s| ==> s[k] == t[k - a];
    assert TrimAt(s, a, a + |r|);
  }

  /** There is only one way to cut the white space off both ends. */
  lemma TrimAtUnique(s: string, a1: int, b1: int, a2: int, b2: int)
    requires TrimAt(s, a1, b1) && TrimAt(s, a2, b2)
    ensures s[a1..b1] == s[a2..b2]
  {
    // a non-blank cut starts at the first and ends at the last character that
    // is not white space; a blank cut means there is no such character
  }

  /** Trimming twice is trimming once. */
  lemma TrimIdempotent(s: string)
    ensures Trim(Trim(s)) == Trim(s)
  {
    var r := Trim(s);
    TrimCut(s);
    var a, b :| TrimAt(s, a, b) && r == s[a..b];
    assert TrimAt(r, 0, |r|);
    TrimCut(r);
    var c, d :| TrimAt(r, c, d) && Trim(r) == r[c..d];
    TrimAtUnique(r, 0, |r|, c, d);
  }

  /** A string trims to the empty string exactly when it is all white space
      (JavaScript's `!s.trim()`). */
  lemma TrimEmptyIff(s: string)
    ensures Trim(s) == [] <==> AllSpace(s)
  {
    var r := Trim(s);
    TrimCut(s);
    var a, b :| TrimAt(s, a, b) && r == s[a..b];
    if AllSpace(s) {
      assert TrimAt(s, 0, 0);
      TrimAtUnique(s, 0, 0, a, b);
    } else {
      var i :| 0 <= i < |s| && !IsSpace(s[i]);
      assert a <= i < b;
      assert r[i - a] == s[i];
    }
  }

  /** Non-empty, and neither starts nor ends with white space. */
  predicate IsTrimmed(t: string) {
    t != [] && !IsSpace(t[0]) && !IsSpace(t[|t| - 1])
  }

  predicate IsDigit(c: char) {
    '0' <= c <= '9'
  }

  predicate AllDigits(s: string) {
    forall i :: 0 <= i < |s| ==> IsDigit(s[i])
  }

  function DigitChar(d: nat): (c: char)
    requires d < 10
    ensures IsDigit(c)
  {
    (48 + d) as char
  }

  function DigitValue(c: char): (d: nat)
    requires IsDigit(c)
    ensures d < 10
  {
    c as int - 48
  }

  /** The decimal rendering of a natural number, as a template literal
      prints it: at least one digit, no leading zero. */
  function NatToString(n: nat): (r: string)
    ensures |r| >= 1 && AllDigits(r)
    ensures r[0] == '0' ==> n == 0
    decreases n
  {
    if n < 10 then [DigitChar(n)] else NatToString(n / 10) + [DigitChar(n % 10)]
  }

  /** Reads a string of decimal digits back as a number. */
  function ParseDigits(s: string): nat
    requires AllDigits(s)
  {
    if s == [] then 0 else ParseDigits(s[..|s| - 1]) * 10 + DigitValue(s[|s| - 1])
  }

  /** Parsing undoes the decimal rendering. */
  lemma {:induction false} ParseNatToString(n: nat)
    ensures ParseDigits(NatToString(n)) == n
    decreases n
  {
    var r := NatToString(n);
    if n < 10 {
      assert r[..0] == [];
    } else {
      ParseNatToString(n / 10);
      assert r[..|r| - 1] == NatToString(n / 10);
    }
  }

  /** Distinct numbers render as distinct strings. */
  lemma NatToStringInjective(m: nat, n: nat)
    ensures NatToString(m) == NatToString(n) ==> m == n
  {
    ParseNatToString(m);
    ParseNatToString(n);
  }
}

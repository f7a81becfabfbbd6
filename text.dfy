/**
 * The few string operations the pipeline uses: substring search (`in`), case mapping
 * (`lower`, `capitalize`, `title`), `strip`, `startswith`, `join` and decimal rendering
 * of a day number. Case mapping covers the ASCII letters only.
 */
module Text {

  predicate IsUpper(c: char) { 'A' <= c <= 'Z' }

  predicate IsLower(c: char) { 'a' <= c <= 'z' }

  predicate IsLetter(c: char) { IsUpper(c) || IsLower(c) }

  function LowerChar(c: char): (d: char)
    ensures !IsUpper(d)
    ensures !IsUpper(c) ==> d == c
    ensures IsLetter(c) <==> IsLetter(d)
  {
    if IsUpper(c) then (c as int + 32) as char else c
  }

  function UpperChar(c: char): (d: char)
    ensures !IsLower(d)
    ensures !IsLower(c) ==> d == c
    ensures IsLetter(c) <==> IsLetter(d)
  {
    if IsLower(c) then (c as int - 32) as char else c
  }

  /** Python's `str.lower()`. */
  function Lower(s: string): (r: string)
    ensures |r| == |s|
    ensures forall i :: 0 <= i < |s| ==> r[i] == LowerChar(s[i])
  {
    seq(|s|, i requires 0 <= i < |s| => LowerChar(s[i]))
  }

  /** Python's `str.capitalize()`: first character upper case, the rest lower case. */
  function Capitalize(s: string): (r: string)
    ensures |r| == |s|
    ensures |s| > 0 ==> r[0] == UpperChar(s[0]) && r[1..] == Lower(s[1..])
  {
    if s == [] then [] else [UpperChar(s[0])] + Lower(s[1..])
  }

  /** Python's `str.title()`: a letter is upper case when it starts a word, lower case otherwise. */
  function TitleCase(s: string): (r: string)
    ensures |r| == |s|
  {
    seq(|s|, i requires 0 <= i < |s| =>
      if i == 0 || !IsLetter(s[i - 1]) then UpperChar(s[i]) else LowerChar(s[i]))
  }

  /** Python's `str.replace(a, b)` for single characters. */
  function ReplaceChar(s: string, a: char, b: char): (r: string)
    ensures |r| == |s|
    ensures forall i :: 0 <= i < |s| ==> r[i] == (if s[i] == a then b else s[i])
  {
    seq(|s|, i requires 0 <= i < |s| => if s[i] == a then b else s[i])
  }

  predicate StartsWith(s: string, prefix: string) {
    |prefix| <= |s| && s[..|prefix|] == prefix
  }

  /** Python's `sub in s`. */
  predicate Contains(s: string, sub: string)
    decreases |s|
  {
    StartsWith(s, sub) || (|s| > 0 && Contains(s[1..], sub))
  }

  lemma {:induction false} ContainsAt(s: string, sub: string, i: nat)
    requires i + |sub| <= |s| && s[i..i + |sub|] == sub
    ensures Contains(s, sub)
    decreases i
  {
    if i > 0 {
      assert s[1..][i - 1..i - 1 + |sub|] == s[i..i + |sub|];
      ContainsAt(s[1..], sub, i - 1);
    }
  }

  /** The whitespace characters Python's `str.strip()` removes (ASCII ones). */
  predicate IsSpace(c: char) {
    c == ' ' || c == '\t' || c == '\n' || c == '\r' || c as int == 11 || c as int == 12
  }

  function TrimStart(s: string): (r: string)
    ensures |r| <= |s| && s[|s| - |r|..] == r
    ensures r == [] || !IsSpace(r[0])
  {
    if s != [] && IsSpace(s[0]) then TrimStart(s[1..]) else s
  }

  function TrimEnd(s: string): (r: string)
    ensures |r| <= |s| && s[..|r|] == r
    ensures r == [] || !IsSpace(r[|r| - 1])
  {
    if s != [] && IsSpace(s[|s| - 1]) then TrimEnd(s[..|s| - 1]) else s
  }

  /** Python's `str.strip()`. */
  function Strip(s: string): (r: string)
    ensures r == [] || (!IsSpace(r[0]) && !IsSpace(r[|r| - 1]))
  {
    TrimEnd(TrimStart(s))
  }

  /** Python's `sep.join(parts)`. */
  function Join(parts: seq<string>, sep: string): string
  {
    if parts == [] then ""
    else if |parts| == 1 then parts[0]
    else parts[0] + sep + Join(parts[1..], sep)
  }

  function DigitChar(d: nat): (c: char)
    requires d < 10
    ensures '0' <= c <= '9'
  {
    ('0' as int + d) as char
  }

  /** Decimal rendering of a natural number, as `str(n)` or an f-string gives it. */
  function NatToString(n: nat): (r: string)
    ensures |r| > 0
    ensures forall i :: 0 <= i < |r| ==> '0' <= r[i] <= '9'
    decreases n
  {
    if n < 10 then [DigitChar(n)] else NatToString(n / 10) + [DigitChar(n % 10)]
  }
}

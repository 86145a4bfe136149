/**
 * The few pieces of Python string behaviour the message handler relies on:
 * `str.strip()`, the `%s` rendering of a list of strings, and the text of
 * an `AttributeError`.
 */
module PyText {

  /** Python's `str.isspace()` for one character: the characters `str.strip()` removes. */
  predicate IsSpace(c: char) {
    || ('\t' <= c <= '\r')               // \t \n \v \f \r
    || ('\U{1C}' <= c <= '\U{1F}')       // file, group, record and unit separators
    || c == ' ' || c == '\U{85}' || c == '\U{A0}' || c == '\U{1680}'
    || ('\U{2000}' <= c <= '\U{200A}')
    || c == '\U{2028}' || c == '\U{2029}' || c == '\U{202F}' || c == '\U{205F}' || c == '\U{3000}'
  }

  ghost predicate AllSpace(s: string) {
    forall i :: 0 <= i < |s| ==> IsSpace(s[i])
  }

  /** `s.lstrip()`: drops the leading whitespace and keeps the rest untouched. */
  function TrimLeft(s: string): (r: string)
    ensures |r| <= |s| && r == s[|s| - |r|..]
    ensures forall i :: 0 <= i < |s| - |r| ==> IsSpace(s[i])
    ensures r != [] ==> !IsSpace(r[0])
  {
    if s != [] && IsSpace(s[0]) then
      var r := TrimLeft(s[1..]);
      assert forall i :: 1 <= i < |s| - |r| ==> s[i] == s[1..][i - 1];
      r
    else s
  }

  /** `s.rstrip()`: drops the trailing whitespace and keeps the rest untouched. */
  function TrimRight(s: string): (r: string)
    ensures |r| <= |s| && r == s[..|r|]
    ensures forall i :: |r| <= i < |s| ==> IsSpace(s[i])
    ensures r != [] ==> !IsSpace(r[|r| - 1])
  {
    if s != [] && IsSpace(s[|s| - 1]) then
      var r := TrimRight(s[..|s| - 1]);
      assert forall i :: |r| <= i < |s| - 1 ==> s[i] == s[..|s| - 1][i];
      r
    else s
  }

  /** `r` is `s[i..j]` and everything of `s` outside it is whitespace. */
  ghost predicate Between(s: string, r: string, i: nat, j: nat) {
    i <= j <= |s| && r == s[i..j] && AllSpace(s[..i]) && AllSpace(s[j..])
  }

  /**
   * `s.strip()`: the part of `s` between its leading and its trailing
   * whitespace, which itself neither starts nor ends with whitespace.
   */
  function Strip(s: string): (r: string)
    ensures |r| <= |s|
    ensures exists i, j :: Between(s, r, i, j)
    ensures r != [] ==> !IsSpace(r[0]) && !IsSpace(r[|r| - 1])
  {
    TrimmedBetween(s, TrimLeft(s), TrimRight(TrimLeft(s)));
    TrimRight(TrimLeft(s))
  }

  /** Left-trimming `s` to `t` and right-trimming `t` to `r` leaves `r` between whitespace of `s`. */
  lemma TrimmedBetween(s: string, t: string, r: string)
    requires |t| <= |s| && t == s[|s| - |t|..] && forall k :: 0 <= k < |s| - |t| ==> IsSpace(s[k])
    requires |r| <= |t| && r == t[..|r|] && forall k :: |r| <= k < |t| ==> IsSpace(t[k])
    ensures Between(s, r, |s| - |t|, |s| - |t| + |r|)
  {
    var i := |s| - |t|;
    var j := i + |r|;
    SpacePrefix(s, i);
    SpaceSuffix(t, |r|);
    assert s[i..][..|r|] == s[i..j] && s[i..][|r|..] == s[j..];
  }

  lemma SpacePrefix(s: string, i: nat)
    requires i <= |s| && forall k :: 0 <= k < i ==> IsSpace(s[k])
    ensures AllSpace(s[..i])
  {
    assert forall k :: 0 <= k < i ==> s[..i][k] == s[k];
  }

  lemma SpaceSuffix(s: string, j: nat)
    requires j <= |s| && forall k :: j <= k < |s| ==> IsSpace(s[k])
    ensures AllSpace(s[j..])
  {
    assert forall k :: 0 <= k < |s| - j ==> s[j..][k] == s[j + k];
  }

  /** `not s.strip()` holds exactly when every character of `s` is whitespace. */
  lemma StripEmptyIff(s: string)
    ensures Strip(s) == [] <==> AllSpace(s)
  {
    var t := TrimLeft(s);
    var k := |s| - |t|;
    if Strip(s) == [] {
      assert t[0..] == t;
      assert s == s[..k];
    } else {
      var r := Strip(s);
      assert r == t[..|r|];
      assert r[0] == s[k];
    }
  }

  /** Characters that Python's `repr` of a string leaves as they are inside single quotes. */
  predicate PlainChar(c: char) {
    ' ' <= c <= '~' && c != '\'' && c != '\\'
  }

  predicate PlainName(s: string) {
    forall i :: 0 <= i < |s| ==> PlainChar(s[i])
  }

  function QuotedItems(xs: seq<string>): string
    requires forall i :: 0 <= i < |xs| ==> PlainName(xs[i])
  {
    if xs == [] then ""
    else if |xs| == 1 then "'" + xs[0] + "'"
    else "'" + xs[0] + "', " + QuotedItems(xs[1..])
  }

  /** `'%s' % xs` for a list of plain strings, as Python renders it. */
  function ListRepr(xs: seq<string>): (r: string)
    requires forall i :: 0 <= i < |xs| ==> PlainName(xs[i])
    ensures |r| >= 2 && r[0] == '[' && r[|r| - 1] == ']'
  {
    "[" + QuotedItems(xs) + "]"
  }

  /** `'%s' % [a, b]`: both items quoted and separated by a comma and a space. */
  lemma ListReprTwo(a: string, b: string)
    requires PlainName(a) && PlainName(b)
    ensures ListRepr([a, b]) == "['" + a + "', '" + b + "']"
  {
    assert [a, b][1..] == [b];
    assert "', " + "'" == "', '";
    assert QuotedItems([a, b]) == "'" + a + "', '" + b + "'";
  }

  /** `'%s' % [a, b, c]`: the three items quoted and separated by a comma and a space. */
  lemma ListReprThree(a: string, b: string, c: string)
    requires PlainName(a) && PlainName(b) && PlainName(c)
    ensures ListRepr([a, b, c]) == "['" + a + "', '" + b + "', '" + c + "']"
  {
    assert [a, b, c][1..] == [b, c] && [b, c][1..] == [c];
    assert "', " + "'" == "', '";
    assert QuotedItems([b, c]) == "'" + b + "', '" + c + "'";
    assert QuotedItems([a, b, c]) == "'" + a + "', '" + b + "', '" + c + "'";
  }

  /** `str(n)` for a natural number: its decimal digits, most significant first. */
  function Decimal(n: nat): (r: string)
    ensures r != [] && forall i :: 0 <= i < |r| ==> '0' <= r[i] <= '9'
    ensures DigitsValue(r) == n
    ensures |r| > 1 ==> r[0] != '0'
  {
    var digit := (48 + n % 10) as char;
    if n < 10 then [digit]
    else
      var r := Decimal(n / 10) + [digit];
      assert r[..|r| - 1] == Decimal(n / 10);
      r
  }

  /** The number a string of decimal digits spells, most significant digit first. */
  function DigitsValue(r: string): int {
    if r == [] then 0 else 10 * DigitsValue(r[..|r| - 1]) + (r[|r| - 1] as int - 48)
  }

  /** `str(e)` of the `AttributeError` raised by `v.attr` on a value of type `typeName`. */
  function AttributeErrorText(typeName: string, attribute: string): (r: string)
    ensures |r| == |typeName| + |attribute| + 29
    ensures r[..|typeName| + 2] == "'" + typeName + "'"
    ensures r[|r| - |attribute| - 2..] == "'" + attribute + "'"
  {
    "'" + typeName + "' object has no attribute '" + attribute + "'"
  }
}

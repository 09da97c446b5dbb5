/** String helpers shared by several source files: the extension taken by
    `name.split('.').pop()`, ASCII lower-casing, JavaScript white space and
    `String.prototype.trim`, `Array.prototype.join` and decimal rendering. */
module Text {

  /** The text after the last '.', or the whole string when it has no '.':
      what `s.split('.').pop()` yields (split always returns at least one piece). */
  function LastSegment(s: string): (r: string)
    ensures |r| <= |s| && r == s[|s| - |r|..]
    ensures '.' !in r
    ensures |r| == |s| || s[|s| - |r| - 1] == '.'
    decreases |s|
  {
    if s == [] then []
    else if s[|s| - 1] == '.' then []
    else
      var r := LastSegment(s[..|s| - 1]) + [s[|s| - 1]];
      assert s[..|s| - 1][|s| - 1 - (|r| - 1)..] + [s[|s| - 1]] == s[|s| - |r|..];
      r
  }

  predicate IsAsciiUpper(c: char) { 'A' <= c <= 'Z' }

  function ToLowerChar(c: char): (d: char)
    ensures !IsAsciiUpper(d)
    ensures IsAsciiUpper(c) ==> d as int == c as int + 32
    ensures !IsAsciiUpper(c) ==> d == c
  {
    if IsAsciiUpper(c) then (c as int + 32) as char else c
  }

  /** `toLowerCase`, on ASCII letters. */
  function ToLower(s: string): (r: string)
    ensures |r| == |s|
    ensures forall i :: 0 <= i < |s| ==> r[i] == ToLowerChar(s[i])
  {
    seq(|s|, i requires 0 <= i < |s| => ToLowerChar(s[i]))
  }

  /** The extension as `file.name.split('.').pop()?.toLowerCase()` computes it. */
  function Extension(name: string): (ext: string)
    ensures '.' !in ext
    ensures |ext| <= |name|
    ensures forall i :: 0 <= i < |ext| ==> !IsAsciiUpper(ext[i])
  {
    ToLower(LastSegment(name))
  }

  /** ECMAScript line terminators, where `^` and `$` match in multiline mode. */
  predicate IsLineTerminator(c: char) {
    c == '\n' || c == '\r' || c == '\U{2028}' || c == '\U{2029}'
  }

  /** ECMAScript white space plus line terminators: the class `\s` of
      regular expressions and the characters `trim` removes. */
  predicate IsWhitespace(c: char) {
    || c == '\t' || c == '\U{000B}' || c == '\U{000C}' || c == ' '
    || c == '\U{00A0}' || c == '\U{1680}' || ('\U{2000}' <= c <= '\U{200A}')
    || c == '\U{202F}' || c == '\U{205F}' || c == '\U{3000}' || c == '\U{FEFF}'
    || IsLineTerminator(c)
  }

  function TrimStart(s: string): (r: string)
    ensures |r| <= |s| && r == s[|s| - |r|..]
    ensures r == [] || !IsWhitespace(r[0])
    ensures forall i :: 0 <= i < |s| - |r| ==> IsWhitespace(s[i])
  {
    if s != [] && IsWhitespace(s[0]) then
      var r := TrimStart(s[1..]);
      assert s[1..][|s| - 1 - |r|..] == s[|s| - |r|..];
      assert forall i :: 1 <= i < |s| - |r| ==> s[i] == s[1..][i - 1];
      r
    else s
  }

  function TrimEnd(s: string): (r: string)
    ensures |r| <= |s| && r == s[..|r|]
    ensures r == [] || !IsWhitespace(r[|r| - 1])
    ensures forall i :: |r| <= i < |s| ==> IsWhitespace(s[i])
  {
    if s != [] && IsWhitespace(s[|s| - 1]) then
      var r := TrimEnd(s[..|s| - 1]);
      assert s[..|s| - 1][..|r|] == s[..|r|];
      assert forall i :: |r| <= i < |s| - 1 ==> s[i] == s[..|s| - 1][i];
      r
    else s
  }

  /** The number of leading white-space characters of s. */
  function LeadingWhitespace(s: string): (n: nat)
    ensures n <= |s|
    ensures forall k :: 0 <= k < n ==> IsWhitespace(s[k])
    ensures n == |s| || !IsWhitespace(s[n])
  {
    |s| - |TrimStart(s)|
  }

  /** `String.prototype.trim`: the substring left after removing every
      leading and every trailing white-space character. */
  function Trim(s: string): (r: string)
    ensures r == [] || (!IsWhitespace(r[0]) && !IsWhitespace(r[|r| - 1]))
    ensures var i := LeadingWhitespace(s);
      && i + |r| <= |s| && r == s[i..i + |r|]
      && (forall k :: i + |r| <= k < |s| ==> IsWhitespace(s[k]))
  {
    TrimEnd(TrimStart(s))
  }

  /** `xs.join(sep)`. */
  function Join(xs: seq<string>, sep: string): (r: string)
    ensures xs == [] ==> r == []
    ensures |xs| == 1 ==> r == xs[0]
  {
    if xs == [] then []
    else if |xs| == 1 then xs[0]
    else xs[0] + sep + Join(xs[1..], sep)
  }

  /** Joining one more piece appends the separator and that piece. */
  lemma {:induction false} JoinSnoc(xs: seq<string>, x: string, sep: string)
    requires xs != []
    ensures Join(xs + [x], sep) == Join(xs, sep) + sep + x
    decreases |xs|
  {
    if |xs| == 1 {
      assert (xs + [x])[1..] == [x];
    } else {
      assert (xs + [x])[0] == xs[0] && (xs + [x])[1..] == xs[1..] + [x];
      JoinSnoc(xs[1..], x, sep);
    }
  }

  /** Every piece occurs in the joined text: `k` is where piece i begins. */
  lemma {:induction false} JoinOffset(xs: seq<string>, sep: string, i: nat) returns (k: nat)
    requires i < |xs|
    ensures k + |xs[i]| <= |Join(xs, sep)| && Join(xs, sep)[k..k + |xs[i]|] == xs[i]
    decreases |xs|
  {
    var j := Join(xs, sep);
    if |xs| == 1 {
      k := 0;
      assert j[0..|xs[0]|] == xs[0];
    } else if i == 0 {
      k := 0;
      assert j[0..|xs[0]|] == xs[0];
    } else {
      var m := JoinOffset(xs[1..], sep, i - 1);
      var head := xs[0] + sep;
      assert j == head + Join(xs[1..], sep);
      k := |head| + m;
      assert j[k..k + |xs[i]|] == Join(xs[1..], sep)[m..m + |xs[i]|];
    }
  }

  predicate IsDigit(c: char) { '0' <= c <= '9' }

  /** The decimal rendering a template literal gives a non-negative integer. */
  function NatToString(n: nat): (r: string)
    ensures r != []
    ensures forall i :: 0 <= i < |r| ==> IsDigit(r[i])
  {
    var d := ['0' + (n % 10) as char];
    if n < 10 then d else NatToString(n / 10) + d
  }

  /** Two or more digits exactly from ten on. */
  lemma NatToStringLength(n: nat)
    ensures |NatToString(n)| == 1 <==> n < 10
  {
  }

  /** Different numbers render differently. */
  lemma {:induction false} NatToStringInjective(n: nat, m: nat)
    requires NatToString(n) == NatToString(m)
    ensures n == m
    decreases n
  {
    var a, b := NatToString(n), NatToString(m);
    NatToStringLength(n);
    NatToStringLength(m);
    assert a[|a| - 1] == b[|b| - 1];
    assert n % 10 == m % 10;
    if n >= 10 {
      assert a[..|a| - 1] == NatToString(n / 10);
      assert b[..|b| - 1] == NatToString(m / 10);
      NatToStringInjective(n / 10, m / 10);
    }
  }
}

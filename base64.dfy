/** Standard base64 (section 4 of RFC 4648), the encoding that
    `Buffer.from(bytes).toString('base64')` produces, and the shape test
    `/^[A-Za-z0-9+/]*={0,2}$/` the clients apply to it. */
module Base64 {
  import opened Wrappers
  import opened Types

  const ALPHABET := "ABCDEFGHIJKLMNOPQRSTUVWXYZabcdefghijklmnopqrstuvwxyz0123456789+/"

  /** A character of the class `[A-Za-z0-9+/]`. */
  predicate IsBase64Char(c: char) {
    ('A' <= c <= 'Z') || ('a' <= c <= 'z') || ('0' <= c <= '9') || c == '+' || c == '/'
  }

  /** The character for a 6-bit value. */
  function Char64(v: int): (c: char)
    requires 0 <= v < 64
    ensures IsBase64Char(c)
  {
    if v < 26 then 'A' + v as char
    else if v < 52 then 'a' + (v - 26) as char
    else if v < 62 then '0' + (v - 52) as char
    else if v == 62 then '+'
    else '/'
  }

  /** The 6-bit value of an alphabet character: the inverse of `Char64`. */
  function Value64(c: char): (v: int)
    requires IsBase64Char(c)
    ensures 0 <= v < 64 && Char64(v) == c
  {
    if 'A' <= c <= 'Z' then c as int - 'A' as int
    else if 'a' <= c <= 'z' then c as int - 'a' as int + 26
    else if '0' <= c <= '9' then c as int - '0' as int + 52
    else if c == '+' then 62
    else 63
  }

  lemma ValueOfChar(v: int)
    requires 0 <= v < 64
    ensures Value64(Char64(v)) == v
  {
  }

  /** The number of '=' the encoding of n bytes ends with. */
  function Padding(n: nat): nat {
    if n % 3 == 0 then 0 else 3 - n % 3
  }

  lemma DivMod(q: int, r: int, n: int)
    requires 0 <= q && 0 <= r < n && n in {4, 16, 64}
    ensures (q * n + r) / n == q && (q * n + r) % n == r
  {
    if n == 4 {
      assert (q * 4 + r) / 4 == q;
    } else if n == 16 {
      assert (q * 16 + r) / 16 == q;
    } else {
      assert (q * 64 + r) / 64 == q;
    }
  }

  /** The four 6-bit values of a group of three bytes. */
  function Sextets(x: Byte, y: Byte, z: Byte): (v: (int, int, int, int))
    ensures 0 <= v.0 < 64 && 0 <= v.1 < 64 && 0 <= v.2 < 64 && 0 <= v.3 < 64
    ensures v.0 * 4 + v.1 / 16 == x && (v.1 % 16) * 16 + v.2 / 4 == y && (v.2 % 4) * 64 + v.3 == z
  {
    DivMod(x / 4, x % 4, 4);
    DivMod(x % 4, y / 16, 16);
    DivMod(y / 16, y % 16, 16);
    DivMod(y % 16, z / 64, 4);
    DivMod(z / 64, z % 64, 64);
    (x / 4, (x % 4) * 16 + y / 16, (y % 16) * 4 + z / 64, z % 64)
  }

  /** The four characters of a group of three bytes. */
  function Group(x: Byte, y: Byte, z: Byte): (r: string)
    ensures |r| == 4 && forall i :: 0 <= i < 4 ==> IsBase64Char(r[i])
  {
    var v := Sextets(x, y, z);
    [Char64(v.0), Char64(v.1), Char64(v.2), Char64(v.3)]
  }

  /** The encoding: every three bytes become four characters; a final group
      of one or two bytes is encoded as if followed by zero bytes, keeps two
      or three characters and is padded with '=' to four. */
  function Encode(b: seq<Byte>): (r: string)
    ensures |r| == 4 * ((|b| + 2) / 3)
    ensures forall i :: 0 <= i < |r| - Padding(|b|) ==> IsBase64Char(r[i])
    ensures forall i :: |r| - Padding(|b|) <= i < |r| ==> r[i] == '='
    decreases |b|
  {
    if |b| == 0 then ""
    else if |b| == 1 then
      var g := Group(b[0], 0, 0)[..2];
      PaddedConcat(g, "==", 2);
      g + "=="
    else if |b| == 2 then
      var g := Group(b[0], b[1], 0)[..3];
      PaddedConcat(g, "=", 1);
      g + "="
    else
      var rest := Encode(b[3..]);
      ShiftByThree(|b[3..]|);
      var g := Group(b[0], b[1], b[2]);
      PaddedConcat(g, rest, Padding(|b|));
      g + rest
  }

  /** Three more bytes: the same padding and one more group. */
  lemma ShiftByThree(n: nat)
    ensures Padding(n + 3) == Padding(n)
    ensures (n + 3 + 2) / 3 == (n + 2) / 3 + 1
  {
  }

  /** Alphabet characters followed by a string of alphabet characters and
      `p` trailing '=' is again such a string. */
  lemma PaddedConcat(a: string, c: string, p: nat)
    requires forall i :: 0 <= i < |a| ==> IsBase64Char(a[i])
    requires p <= |c|
    requires forall i :: 0 <= i < |c| - p ==> IsBase64Char(c[i])
    requires forall i :: |c| - p <= i < |c| ==> c[i] == '='
    ensures forall i :: 0 <= i < |a + c| - p ==> IsBase64Char((a + c)[i])
    ensures forall i :: |a + c| - p <= i < |a + c| ==> (a + c)[i] == '='
  {
    assert forall i :: |a| <= i < |a + c| ==> (a + c)[i] == c[i - |a|];
  }

  /** The regular expression `^[A-Za-z0-9+/]*={0,2}$`, as its meaning: the
      string is alphabet characters followed by at most two '='. */
  ghost predicate MatchesShape(s: string) {
    exists k :: SplitsAt(s, k)
  }

  /** `s[..k]` is in the class and `s[k..]` is at most two '='. */
  predicate SplitsAt(s: string, k: int) {
    0 <= k <= |s| && |s| - k <= 2
    && (forall i :: 0 <= i < k ==> IsBase64Char(s[i]))
    && (forall i :: k <= i < |s| ==> s[i] == '=')
  }

  lemma ShapeWitness(s: string, k: nat)
    requires k <= |s| && |s| - k <= 2
    requires forall i :: 0 <= i < k ==> IsBase64Char(s[i])
    requires forall i :: k <= i < |s| ==> s[i] == '='
    ensures MatchesShape(s)
  {
    assert SplitsAt(s, k);
  }

  /** The length of the longest prefix of alphabet characters. */
  function AlphabetPrefix(s: string): (k: nat)
    ensures k <= |s|
    ensures forall i :: 0 <= i < k ==> IsBase64Char(s[i])
    ensures k < |s| ==> !IsBase64Char(s[k])
  {
    if s == [] || !IsBase64Char(s[0]) then 0 else 1 + AlphabetPrefix(s[1..])
  }

  /** The test as the regular-expression engine runs it: the greedy class
      stops at the first non-alphabet character, which must begin a tail of
      at most two '='. */
  function TestShape(s: string): (ok: bool)
    ensures ok <==> MatchesShape(s)
  {
    var k := AlphabetPrefix(s);
    var tail := s[k..];
    var ok := tail == [] || tail == "=" || tail == "==";
    assert ok ==> MatchesShape(s) by {
      if ok {
        assert forall j :: 0 <= j < |tail| ==> tail[j] == '=';
        assert forall i :: k <= i < |s| ==> s[i] == tail[i - k];
        ShapeWitness(s, k);
      }
    }
    assert MatchesShape(s) ==> ok by {
      if MatchesShape(s) {
        var j :| SplitsAt(s, j);
        assert j < |s| ==> s[j] == '=';
        assert j == k;
        assert |tail| <= 2 && forall i :: 0 <= i < |tail| ==> tail[i] == s[k + i];
      }
    }
    ok
  }

  /** The encoding of a non-empty buffer is non-empty and passes the shape
      test, so neither of the checks after the conversion can fail. */
  lemma EncodedPassesChecks(b: seq<Byte>)
    ensures (Encode(b) == []) <==> (b == [])
    ensures TestShape(Encode(b))
  {
    var r := Encode(b);
    ShapeWitness(r, |r| - Padding(|b|));
  }

  /** The three bytes of an unpadded group of four characters. */
  function DecodeFull(s: string): (r: Option<seq<Byte>>)
    requires |s| == 4
  {
    if IsBase64Char(s[0]) && IsBase64Char(s[1]) && IsBase64Char(s[2]) && IsBase64Char(s[3]) then
      var a, b, c, d := Value64(s[0]), Value64(s[1]), Value64(s[2]), Value64(s[3]);
      Some([a * 4 + b / 16, (b % 16) * 16 + c / 4, (c % 4) * 64 + d])
    else None
  }

  /** The final group, which may carry one or two '='; bits the dropped
      bytes would have held must be zero. */
  function DecodeLast(s: string): (r: Option<seq<Byte>>)
    requires |s| == 4
  {
    if IsBase64Char(s[0]) && IsBase64Char(s[1]) && s[2] == '=' && s[3] == '=' then
      var a, b := Value64(s[0]), Value64(s[1]);
      if b % 16 == 0 then Some([a * 4 + b / 16]) else None
    else if IsBase64Char(s[0]) && IsBase64Char(s[1]) && IsBase64Char(s[2]) && s[3] == '=' then
      var a, b, c := Value64(s[0]), Value64(s[1]), Value64(s[2]);
      if c % 4 == 0 then Some([a * 4 + b / 16, (b % 16) * 16 + c / 4]) else None
    else DecodeFull(s)
  }

  /** Decoding of a string of whole four-character groups, the inverse the
      encoding is defined against; `None` for a string no encoding
      produces. */
  function Decode(s: string): (r: Option<seq<Byte>>)
    decreases |s|
  {
    if s == [] then Some([])
    else if |s| < 4 then None
    else if |s| == 4 then DecodeLast(s)
    else match (DecodeFull(s[..4]), Decode(s[4..]))
      case (Some(group), Some(rest)) => Some(group + rest)
      case _ => None
  }

  lemma DecodeOne(x: Byte)
    ensures Decode(Group(x, 0, 0)[..2] + "==") == Some([x])
  {
    var r, v := Group(x, 0, 0)[..2] + "==", Sextets(x, 0, 0);
    assert r == [Char64(v.0), Char64(v.1), '=', '='];
    ValueOfChar(v.0);
    ValueOfChar(v.1);
    DecodeDoublePadded(r);
  }

  lemma DecodeTwo(x: Byte, y: Byte)
    ensures Decode(Group(x, y, 0)[..3] + "=") == Some([x, y])
  {
    var r, v := Group(x, y, 0)[..3] + "=", Sextets(x, y, 0);
    assert r == [Char64(v.0), Char64(v.1), Char64(v.2), '='];
    ValueOfChar(v.0);
    ValueOfChar(v.1);
    ValueOfChar(v.2);
    DecodeSinglePadded(r);
  }

  /** A final group with two '='. */
  lemma DecodeDoublePadded(r: string)
    requires |r| == 4 && IsBase64Char(r[0]) && IsBase64Char(r[1]) && r[2] == '=' && r[3] == '='
    requires Value64(r[1]) % 16 == 0
    ensures Decode(r) == Some([Value64(r[0]) * 4 + Value64(r[1]) / 16])
  {
  }

  /** A final group with one '='. */
  lemma DecodeSinglePadded(r: string)
    requires |r| == 4 && IsBase64Char(r[0]) && IsBase64Char(r[1]) && IsBase64Char(r[2]) && r[3] == '='
    requires Value64(r[2]) % 4 == 0
    ensures Decode(r) == Some([Value64(r[0]) * 4 + Value64(r[1]) / 16, (Value64(r[1]) % 16) * 16 + Value64(r[2]) / 4])
  {
    assert r[2] != '=';
  }

  lemma DecodeGroup(x: Byte, y: Byte, z: Byte)
    ensures DecodeFull(Group(x, y, z)) == Some([x, y, z])
  {
    var r, v := Group(x, y, z), Sextets(x, y, z);
    assert r == [Char64(v.0), Char64(v.1), Char64(v.2), Char64(v.3)];
    ValueOfChar(v.0);
    ValueOfChar(v.1);
    ValueOfChar(v.2);
    ValueOfChar(v.3);
    assert Value64(r[0]) == v.0 && Value64(r[1]) == v.1 && Value64(r[2]) == v.2 && Value64(r[3]) == v.3;
    assert DecodeFull(r) == Some([v.0 * 4 + v.1 / 16, (v.1 % 16) * 16 + v.2 / 4, (v.2 % 4) * 64 + v.3]);
  }

  lemma EncodeSplit(b: seq<Byte>)
    requires |b| >= 3
    ensures Encode(b) == Group(b[0], b[1], b[2]) + Encode(b[3..])
  {
  }

  lemma DecodeSplit(g: string, rest: string)
    requires |g| == 4 && |rest| > 0 && DecodeFull(g).Some? && Decode(rest).Some?
    ensures Decode(g + rest) == Some(DecodeFull(g).value + Decode(rest).value)
  {
    assert (g + rest)[..4] == g && (g + rest)[4..] == rest;
  }

  lemma DecodeLastFull(g: string)
    requires |g| == 4 && IsBase64Char(g[2]) && IsBase64Char(g[3])
    ensures Decode(g) == DecodeFull(g)
  {
  }

  lemma Regroup(b: seq<Byte>)
    requires |b| >= 3
    ensures [b[0], b[1], b[2]] + b[3..] == b
  {
    assert b == b[..3] + b[3..];
  }

  /** Decoding undoes the encoding. */
  lemma {:induction false} DecodeEncode(b: seq<Byte>)
    ensures Decode(Encode(b)) == Some(b)
    decreases |b|
  {
    if |b| > 3 {
      DecodeEncode(b[3..]);
      DecodeEncodeStep(b);
    } else {
      DecodeEncodeShort(b);
    }
  }

  /** At most one group: the round trip by cases. */
  lemma DecodeEncodeShort(b: seq<Byte>)
    requires |b| <= 3
    ensures Decode(Encode(b)) == Some(b)
  {
    if |b| == 1 {
      RoundTripOne(b);
    } else if |b| == 2 {
      RoundTripTwo(b);
    } else if |b| == 3 {
      RoundTripThree(b);
    }
  }

  lemma RoundTripOne(b: seq<Byte>)
    requires |b| == 1
    ensures Decode(Encode(b)) == Some(b)
  {
    assert Encode(b) == Group(b[0], 0, 0)[..2] + "==";
    DecodeOne(b[0]);
    assert [b[0]] == b;
  }

  lemma RoundTripTwo(b: seq<Byte>)
    requires |b| == 2
    ensures Decode(Encode(b)) == Some(b)
  {
    assert Encode(b) == Group(b[0], b[1], 0)[..3] + "=";
    DecodeTwo(b[0], b[1]);
    assert [b[0], b[1]] == b;
  }

  lemma RoundTripThree(b: seq<Byte>)
    requires |b| == 3
    ensures Decode(Encode(b)) == Some(b)
  {
    var g := Group(b[0], b[1], b[2]);
    EncodeSplit(b);
    assert Encode(b[3..]) == "";
    assert Encode(b) == g;
    DecodeGroup(b[0], b[1], b[2]);
    DecodeLastFull(g);
    assert [b[0], b[1], b[2]] == b;
  }

  /** A first full group in front of a rest whose round trip holds. */
  lemma {:induction false} DecodeEncodeStep(b: seq<Byte>)
    requires |b| > 3 && Decode(Encode(b[3..])) == Some(b[3..])
    ensures Decode(Encode(b)) == Some(b)
  {
    var g := Group(b[0], b[1], b[2]);
    DecodeGroup(b[0], b[1], b[2]);
    EncodeSplit(b);
    DecodeSplit(g, Encode(b[3..]));
    Regroup(b);
  }
}

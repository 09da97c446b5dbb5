/** `convertResumeTextToMarkdown` of lib/utils.ts: a header pass, a bullet
    pass and a newline collapse (three global multiline regular-expression
    replacements), then a loop that escapes fifteen characters one after
    another, then `trim`. Each replacement is modelled as the scan the
    regular-expression engine performs: try a match at the current
    position, and on success resume after it. */
module Markdown {
  import opened Wrappers
  import opened Text
  import Lists

  /** Multiline `^`: position p begins a line. */
  predicate AtLineStart(s: string, p: int) {
    p == 0 || (0 < p <= |s| && IsLineTerminator(s[p - 1]))
  }

  /** Multiline `$`: position e ends a line. */
  predicate AtLineEnd(s: string, e: int) {
    e == |s| || (0 <= e < |s| && IsLineTerminator(s[e]))
  }

  /** The class `[A-Z\s]`. */
  predicate IsHeaderChar(c: char) {
    IsAsciiUpper(c) || IsWhitespace(c)
  }

  /** `s[p..e]` is a match of `^([A-Z][A-Z\s]+)$`: it begins a line with an
      upper-case letter, goes on with at least one upper-case letter or white
      space (line terminators included) and ends at a line end. */
  predicate HeaderMatch(s: string, p: int, e: int) {
    && 0 <= p && p + 2 <= e <= |s|
    && AtLineStart(s, p) && IsAsciiUpper(s[p])
    && (forall k :: p < k < e ==> IsHeaderChar(s[k]))
    && AtLineEnd(s, e)
  }

  /** Where the greedy `[A-Z\s]+` starting at q stops. */
  function HeaderRun(s: string, q: nat): (e: nat)
    requires q <= |s|
    ensures q <= e <= |s|
    ensures forall k :: q <= k < e ==> IsHeaderChar(s[k])
    ensures e == |s| || !IsHeaderChar(s[e])
    decreases |s| - q
  {
    if q < |s| && IsHeaderChar(s[q]) then HeaderRun(s, q + 1) else q
  }

  /** The last line end in `[lo, e]`: the first one the engine reaches when
      it backtracks from e. */
  function LastLineEnd(s: string, lo: nat, e: nat): (r: Option<nat>)
    requires e <= |s|
    ensures r.Some? ==> lo <= r.value <= e && AtLineEnd(s, r.value)
    ensures r.Some? ==> forall k :: r.value < k <= e ==> !AtLineEnd(s, k)
    ensures r.None? ==> forall k :: lo <= k <= e ==> !AtLineEnd(s, k)
    decreases e
  {
    if e < lo then None
    else if AtLineEnd(s, e) then Some(e)
    else if e == 0 then None
    else LastLineEnd(s, lo, e - 1)
  }

  /** The end of the header match the engine finds at p: the longest one,
      because the quantifier is greedy; None when no match begins at p. */
  function MatchHeaderAt(s: string, p: nat): (r: Option<nat>)
    requires p <= |s|
    ensures r.Some? ==> HeaderMatch(s, p, r.value)
    ensures r.Some? ==> forall e :: r.value < e <= |s| ==> !HeaderMatch(s, p, e)
    ensures r.None? ==> forall e :: !HeaderMatch(s, p, e)
  {
    if p < |s| && AtLineStart(s, p) && IsAsciiUpper(s[p]) then
      var run := HeaderRun(s, p + 1);
      assert forall e :: run < e <= |s| ==> !HeaderMatch(s, p, e) by {
        assert run < |s| ==> !IsHeaderChar(s[run]);
      }
      LastLineEnd(s, p + 2, run)
    else None
  }

  /** The header replacement from position p on. */
  function HeaderPassFrom(s: string, p: nat): string
    requires p <= |s|
    decreases |s| - p
  {
    if p == |s| then []
    else match MatchHeaderAt(s, p)
      case Some(e) => "## " + s[p..e] + HeaderPassFrom(s, e)
      case None => [s[p]] + HeaderPassFrom(s, p + 1)
  }

  /** `text.replace(/^([A-Z][A-Z\s]+)$/gm, '## $1')`. */
  function HeaderPass(s: string): string {
    HeaderPassFrom(s, 0)
  }

  /** Text in which no header match begins is left as it is. */
  lemma {:induction false} NoHeaderFrom(s: string, p: nat)
    requires p <= |s|
    requires forall k, e :: p <= k ==> !HeaderMatch(s, k, e)
    ensures HeaderPassFrom(s, p) == s[p..]
    decreases |s| - p
  {
    if p < |s| {
      assert MatchHeaderAt(s, p).None?;
      NoHeaderFrom(s, p + 1);
      assert s[p..] == [s[p]] + s[p + 1..];
    }
  }

  /** Text that is one header match from start to end gets one "## ". */
  lemma WholeHeader(s: string)
    requires HeaderMatch(s, 0, |s|)
    ensures HeaderPass(s) == "## " + s
  {
    var r := MatchHeaderAt(s, 0);
    assert r == Some(|s|);
    assert HeaderPassFrom(s, |s|) == [];
    assert s[0..|s|] == s;
  }

  /** Since `\s` includes '\n', consecutive all-caps lines form one match,
      and only the first of them is marked. */
  lemma HeaderSpansLines()
    ensures HeaderPass("SKILLS\nEXPERIENCE") == "## SKILLS\nEXPERIENCE"
  {
    WholeHeader("SKILLS\nEXPERIENCE");
  }

  /** The bullet U+2022 as it appears in the source: its UTF-8 bytes read
      as Windows-1252 characters. */
  const BULLET: string := "\U{00E2}\U{20AC}\U{00A2}"

  /** Where the greedy `\s*` starting at q stops. */
  function WhitespaceRun(s: string, q: nat): (e: nat)
    requires q <= |s|
    ensures q <= e <= |s|
    ensures e == |s| || !IsWhitespace(s[e])
    decreases |s| - q
  {
    if q < |s| && IsWhitespace(s[q]) then WhitespaceRun(s, q + 1) else q
  }

  /** What the run from q passes over is all white space. */
  lemma {:induction false} WhitespaceRunSpan(s: string, q: nat)
    requires q <= |s|
    ensures forall k :: q <= k < WhitespaceRun(s, q) ==> IsWhitespace(s[k])
    decreases |s| - q
  {
    if q < |s| && IsWhitespace(s[q]) {
      WhitespaceRunSpan(s, q + 1);
    }
  }

  /** The three characters of BULLET begin at p, at the start of a line:
      where a match of `^` BULLET `\s*` begins. */
  predicate BulletAt(s: string, p: int) {
    0 <= p && p + 3 <= |s| && AtLineStart(s, p)
    && s[p] == '\U{00E2}' && s[p + 1] == '\U{20AC}' && s[p + 2] == '\U{00A2}'
  }

  /** The bullet replacement from position p on: the bullet and all white
      space after it, newlines included, become "- ". */
  function BulletPassFrom(s: string, p: nat): string
    requires p <= |s|
    decreases |s| - p
  {
    if p == |s| then []
    else if BulletAt(s, p) then "- " + BulletPassFrom(s, WhitespaceRun(s, p + 3))
    else [s[p]] + BulletPassFrom(s, p + 1)
  }

  /** The bullet replacement: every match of `^` BULLET `\s*`, in global
      multiline mode, becomes "- ". */
  function BulletPass(s: string): string {
    BulletPassFrom(s, 0)
  }

  /** Text without a bullet at a line start is left as it is. */
  lemma {:induction false} NoBulletFrom(s: string, p: nat)
    requires p <= |s|
    requires forall k :: p <= k < |s| ==> !BulletAt(s, k)
    ensures BulletPassFrom(s, p) == s[p..]
    decreases |s| - p
  {
    if p < |s| {
      NoBulletFrom(s, p + 1);
      assert s[p..] == [s[p]] + s[p + 1..];
    }
  }

  /** A one-line bullet item: the bullet and the blanks after it become
      "- " and the rest of the line is kept. */
  lemma BulletItem(w: string, rest: string)
    requires forall i :: 0 <= i < |w| ==> IsWhitespace(w[i]) && !IsLineTerminator(w[i])
    requires rest == [] || !IsWhitespace(rest[0])
    requires forall i :: 0 <= i < |rest| ==> !IsLineTerminator(rest[i])
    ensures BulletPass(BULLET + w + rest) == "- " + rest
  {
    var s := BULLET + w + rest;
    var n := 3 + |w|;
    assert s[0..3] == BULLET;
    assert BulletAt(s, 0);
    assert forall k :: 3 <= k < n ==> s[k] == w[k - 3];
    assert n < |s| ==> s[n] == rest[0];
    WhitespaceRunOf(s, 3, |w|, 3);
    assert forall k :: 0 <= k < |s| ==> !IsLineTerminator(s[k]) by {
      assert s[0] == '\U{00E2}' && s[1] == '\U{20AC}' && s[2] == '\U{00A2}';
      assert forall k :: n <= k < |s| ==> s[k] == rest[k - n];
    }
    NoBulletFrom(s, n);
    assert s[n..] == rest;
  }

  /** One step of the pass where a bullet begins. */
  lemma BulletHit(s: string, p: nat)
    requires p < |s| && BulletAt(s, p)
    ensures BulletPassFrom(s, p) == "- " + BulletPassFrom(s, WhitespaceRun(s, p + 3))
  {
  }

  /** One step of the pass anywhere else. */
  lemma BulletMiss(s: string, p: nat)
    requires p < |s| && !BulletAt(s, p)
    ensures BulletPassFrom(s, p) == [s[p]] + BulletPassFrom(s, p + 1)
  {
  }

  /** A white-space run is found the same in a suffix. */
  lemma {:induction false} WhitespaceRunShift(x: string, y: string, q: nat)
    requires q <= |y|
    ensures WhitespaceRun(x + y, |x| + q) == |x| + WhitespaceRun(y, q)
    decreases |y| - q
  {
    if q < |y| {
      assert (x + y)[|x| + q] == y[q];
      WhitespaceRunShift(x, y, q + 1);
    }
  }

  /** A white-space run inside a text stops inside it when what follows
      does not begin with white space. */
  lemma {:induction false} WhitespaceRunPrefix(a: string, r: string, q: nat)
    requires q <= |a|
    requires r == [] || !IsWhitespace(r[0])
    ensures WhitespaceRun(a + r, q) == WhitespaceRun(a, q)
    decreases |a| - q
  {
    if q < |a| {
      assert (a + r)[q] == a[q];
      WhitespaceRunPrefix(a, r, q + 1);
    } else if r != [] {
      assert (a + r)[q] == r[0];
    }
  }

  /** The white-space run from q, inside the run [p, p + k), ends at p + k. */
  lemma {:induction false} WhitespaceRunOf(s: string, p: nat, k: nat, q: nat)
    requires p <= q <= p + k <= |s|
    requires forall i :: p <= i < p + k ==> IsWhitespace(s[i])
    requires p + k == |s| || !IsWhitespace(s[p + k])
    ensures WhitespaceRun(s, q) == p + k
    decreases p + k - q
  {
    if q < p + k {
      WhitespaceRunOf(s, p, k, q + 1);
    }
  }

  /** A bullet is found the same in a suffix, given the suffix's first
      position is a line start in the whole text or holds no bullet. */
  lemma BulletAtShift(x: string, y: string, q: nat)
    requires q < |y|
    requires q > 0 || AtLineStart(x + y, |x|) || !BulletAt(y, 0)
    ensures BulletAt(x + y, |x| + q) == BulletAt(y, q)
  {
    var s := x + y;
    var p := |x| + q;
    if q + 3 <= |y| {
      assert s[p] == y[q] && s[p + 1] == y[q + 1] && s[p + 2] == y[q + 2];
    }
    if q > 0 {
      assert s[p - 1] == y[q - 1];
    }
  }

  /** The bullet pass at a position depends only on what follows it and on
      whether it begins a line. */
  lemma {:induction false} BulletShift(x: string, y: string, q: nat)
    requires q <= |y|
    requires q > 0 || AtLineStart(x + y, |x|) || !BulletAt(y, 0)
    ensures BulletPassFrom(x + y, |x| + q) == BulletPassFrom(y, q)
    decreases |y| - q
  {
    if q < |y| {
      if BulletAt(y, q) {
        var e := WhitespaceRun(y, q + 3);
        BulletShift(x, y, e);
        HitShift(x, y, q);
      } else {
        BulletShift(x, y, q + 1);
        MissShift(x, y, q);
      }
    }
  }

  /** One step of BulletShift at a bullet. */
  lemma HitShift(x: string, y: string, q: nat)
    requires q < |y| && BulletAt(y, q)
    requires q > 0 || AtLineStart(x + y, |x|)
    requires BulletPassFrom(x + y, |x| + WhitespaceRun(y, q + 3)) == BulletPassFrom(y, WhitespaceRun(y, q + 3))
    ensures BulletPassFrom(x + y, |x| + q) == BulletPassFrom(y, q)
  {
    BulletAtShift(x, y, q);
    WhitespaceRunShift(x, y, q + 3);
    HitAgree(x + y, |x| + q, y, q, |x| + WhitespaceRun(y, q + 3), WhitespaceRun(y, q + 3));
  }

  /** One step of BulletShift anywhere else. */
  lemma MissShift(x: string, y: string, q: nat)
    requires q < |y| && !BulletAt(y, q)
    requires q > 0 || AtLineStart(x + y, |x|) || !BulletAt(y, 0)
    requires BulletPassFrom(x + y, |x| + q + 1) == BulletPassFrom(y, q + 1)
    ensures BulletPassFrom(x + y, |x| + q) == BulletPassFrom(y, q)
  {
    BulletAtShift(x, y, q);
    assert (x + y)[|x| + q] == y[q];
    MissAgree(x + y, |x| + q, y, q);
  }

  /** Two bullets where the passes resume at positions that agree agree. */
  lemma HitAgree(s: string, p: nat, t: string, q: nat, ds: nat, dt: nat)
    requires p < |s| && BulletAt(s, p) && q < |t| && BulletAt(t, q)
    requires WhitespaceRun(s, p + 3) == ds && WhitespaceRun(t, q + 3) == dt
    requires BulletPassFrom(s, ds) == BulletPassFrom(t, dt)
    ensures BulletPassFrom(s, p) == BulletPassFrom(t, q)
  {
    BulletHit(s, p);
    BulletHit(t, q);
  }

  /** Two equal characters that begin no bullet, followed by passes that agree. */
  lemma MissAgree(s: string, p: nat, t: string, q: nat)
    requires p < |s| && !BulletAt(s, p) && q < |t| && !BulletAt(t, q) && s[p] == t[q]
    requires BulletPassFrom(s, p + 1) == BulletPassFrom(t, q + 1)
    ensures BulletPassFrom(s, p) == BulletPassFrom(t, q)
  {
    BulletMiss(s, p);
    BulletMiss(t, q);
  }

  /** Inside a prefix ending in a line terminator, a bullet is found the
      same whatever follows: one cannot straddle the terminator. */
  lemma BulletAtPrefix(a: string, r: string, p: nat)
    requires p < |a|
    requires IsLineTerminator(a[|a| - 1])
    ensures BulletAt(a + r, p) == BulletAt(a, p)
  {
    var s := a + r;
    assert s[|a| - 1] == a[|a| - 1];
    if p > 0 {
      assert s[p - 1] == a[p - 1];
    }
    if p + 3 <= |a| {
      assert s[p] == a[p] && s[p + 1] == a[p + 1] && s[p + 2] == a[p + 2];
    }
  }

  /** Before a text that begins a line with no white space, the bullet pass
      of a prefix ending in a line terminator is unaffected by what follows. */
  lemma {:induction false} BulletPrefix(a: string, r: string, p: nat)
    requires p <= |a|
    requires a == [] || IsLineTerminator(a[|a| - 1])
    requires r == [] || !IsWhitespace(r[0])
    ensures BulletPassFrom(a + r, p) == BulletPassFrom(a, p) + BulletPassFrom(a + r, |a|)
    decreases |a| - p
  {
    if p < |a| {
      var s := a + r;
      BulletAtPrefix(a, r, p);
      if BulletAt(a, p) {
        assert BulletPassFrom(s, p) == BulletPassFrom(a, p) + BulletPassFrom(s, |a|) by {
          WhitespaceRunPrefix(a, r, p + 3);
          var e := WhitespaceRun(a, p + 3);
          assert WhitespaceRun(s, p + 3) == e;
          BulletPrefix(a, r, e);
          var u, v := BulletPassFrom(a, e), BulletPassFrom(s, |a|);
          assert BulletPassFrom(s, e) == u + v;
          BulletHit(s, p);
          assert BulletPassFrom(s, p) == "- " + (u + v);
          BulletHit(a, p);
          assert BulletPassFrom(a, p) == "- " + u;
          assert "- " + (u + v) == "- " + u + v;
        }
      } else {
        assert BulletPassFrom(s, p) == BulletPassFrom(a, p) + BulletPassFrom(s, |a|) by {
          assert s[p] == a[p];
          BulletPrefix(a, r, p + 1);
          var u, v := BulletPassFrom(a, p + 1), BulletPassFrom(s, |a|);
          assert BulletPassFrom(s, p + 1) == u + v;
          BulletMiss(s, p);
          assert BulletPassFrom(s, p) == [a[p]] + (u + v);
          BulletMiss(a, p);
          assert BulletPassFrom(a, p) == [a[p]] + u;
          assert [a[p]] + (u + v) == [a[p]] + u + v;
        }
      }
    }
  }

  /** A bullet at p followed by the white space up to n: the pass writes
      "- " and resumes at n. */
  lemma BulletHead(s: string, p: nat, n: nat)
    requires p + 3 <= n <= |s| && BulletAt(s, p)
    requires forall i :: p + 3 <= i < n ==> IsWhitespace(s[i])
    requires n == |s| || !IsWhitespace(s[n])
    ensures BulletPassFrom(s, p) == "- " + BulletPassFrom(s, n)
  {
    BulletHit(s, p);
    WhitespaceRunOf(s, p + 3, n - p - 3, p + 3);
  }

  /** Where a run of white space ends at n, the pass goes on over the rest
      of the text as over a text of its own, except that a bullet right at
      n does not begin a line unless a line terminator precedes it. */
  lemma BulletAfterRun(s: string, n: nat)
    requires 0 < n <= |s|
    ensures BulletPassFrom(s, n) ==
      if IsLineTerminator(s[n - 1]) || !BulletAt(s[n..], 0) then BulletPass(s[n..])
      else [s[n]] + BulletPassFrom(s[n..], 1)
  {
    var x, y := s[..n], s[n..];
    assert s == x + y;
    if IsLineTerminator(s[n - 1]) || !BulletAt(y, 0) {
      BulletShift(x, y, 0);
    } else {
      assert !BulletAt(s, n);
      BulletMiss(s, n);
      assert s[n] == y[0];
      BulletShift(x, y, 1);
    }
  }

  /** The bullet pass over a text with a bullet at the start of the line
      at p, followed by white space up to n. */
  lemma BulletLineAt(s: string, p: nat, n: nat)
    requires p + 3 <= n <= |s| && BulletAt(s, p)
    requires forall i :: p + 3 <= i < n ==> IsWhitespace(s[i])
    requires n == |s| || !IsWhitespace(s[n])
    ensures BulletPass(s) == BulletPass(s[..p]) + "- " +
      (if IsLineTerminator(s[n - 1]) || !BulletAt(s[n..], 0) then BulletPass(s[n..])
       else [s[n]] + BulletPassFrom(s[n..], 1))
  {
    var tail := if IsLineTerminator(s[n - 1]) || !BulletAt(s[n..], 0) then BulletPass(s[n..])
      else [s[n]] + BulletPassFrom(s[n..], 1);
    assert BulletPassFrom(s, n) == tail by {
      BulletAfterRun(s, n);
    }
    assert BulletPassFrom(s, p) == "- " + tail by {
      BulletHead(s, p, n);
    }
    var head := BulletPass(s[..p]);
    assert BulletPass(s) == head + BulletPassFrom(s, p) by {
      var a, r := s[..p], s[p..];
      SplitAt(s, p);
      assert r[0] == '\U{00E2}';
      assert p > 0 ==> a[p - 1] == s[p - 1];
      BulletPrefix(a, r, 0);
    }
    AppendAssoc(head, "- ", tail);
  }

  /** The pieces of a + BULLET + w + rest where the lemma above needs them. */
  lemma BulletLineParts(a: string, w: string, rest: string)
    requires a == [] || IsLineTerminator(a[|a| - 1])
    requires forall i :: 0 <= i < |w| ==> IsWhitespace(w[i])
    requires rest == [] || !IsWhitespace(rest[0])
    ensures var s, n := a + BULLET + w + rest, |a| + 3 + |w|;
      n <= |s| && BulletAt(s, |a|) && s[..|a|] == a && s[n..] == rest
      && (forall i :: |a| + 3 <= i < n ==> IsWhitespace(s[i]))
      && (n == |s| || !IsWhitespace(s[n]))
      && (IsLineTerminator(s[n - 1]) <==> w != [] && IsLineTerminator(w[|w| - 1]))
  {
    var s, n := a + BULLET + w + rest, |a| + 3 + |w|;
    assert s[|a|] == '\U{00E2}' && s[|a| + 1] == '\U{20AC}' && s[|a| + 2] == '\U{00A2}';
    assert |a| > 0 ==> s[|a| - 1] == a[|a| - 1];
    assert s[..|a|] == a;
    assert s[n..] == rest;
    assert forall i :: |a| + 3 <= i < n ==> s[i] == w[i - |a| - 3];
    assert s[n - 1] == if w == [] then '\U{00A2}' else w[|w| - 1];
  }

  /** A bullet at the start of any line: it and all the white space after
      it, line breaks included, become "- ", and the text before and after
      is processed on its own. The one exception is a second bullet right
      after the blanks on the same line: it does not begin a line, so it is
      kept. */
  lemma BulletLine(a: string, w: string, rest: string)
    requires a == [] || IsLineTerminator(a[|a| - 1])
    requires forall i :: 0 <= i < |w| ==> IsWhitespace(w[i])
    requires rest == [] || !IsWhitespace(rest[0])
    ensures BulletPass(a + BULLET + w + rest) == BulletPass(a) + "- " +
      (if (w != [] && IsLineTerminator(w[|w| - 1])) || !BulletAt(rest, 0) then BulletPass(rest)
       else [rest[0]] + BulletPassFrom(rest, 1))
  {
    BulletLineParts(a, w, rest);
    BulletLineAt(a + BULLET + w + rest, |a|, |a| + 3 + |w|);
  }

  /** Three '\n' begin at i. */
  predicate TripleAt(s: string, i: int) {
    0 <= i < |s| - 2 && s[i] == '\n' && s[i + 1] == '\n' && s[i + 2] == '\n'
  }

  /** The text has no run of three '\n'. */
  predicate NoTriple(s: string) {
    forall i :: 0 <= i < |s| ==> !TripleAt(s, i)
  }

  /** Two texts without a triple newline join into one when the seam is
      not a newline on at least one side. */
  lemma NoTripleJoin(a: string, b: string)
    requires NoTriple(a) && NoTriple(b)
    requires a == [] || b == [] || a[|a| - 1] != '\n' || b[0] != '\n'
    ensures NoTriple(a + b)
  {
    var s := a + b;
    forall i | 0 <= i < |s| - 2
      ensures !TripleAt(s, i)
    {
      if i + 2 < |a| {
        assert s[i] == a[i] && s[i + 1] == a[i + 1] && s[i + 2] == a[i + 2];
        assert !TripleAt(a, i);
      } else if i >= |a| {
        assert s[i] == b[i - |a|] && s[i + 1] == b[i + 1 - |a|] && s[i + 2] == b[i + 2 - |a|];
        assert !TripleAt(b, i - |a|);
      } else {
        assert s[|a| - 1] == a[|a| - 1] && s[|a|] == b[0];
      }
    }
  }

  /** Where a run of '\n' starting at q stops. */
  function NewlineRun(s: string, q: nat): (e: nat)
    requires q <= |s|
    ensures q <= e <= |s|
    ensures e == |s| || s[e] != '\n'
    decreases |s| - q
  {
    if q < |s| && s[q] == '\n' then NewlineRun(s, q + 1) else q
  }

  /** What the run from q passes over is all '\n'. */
  lemma {:induction false} NewlineRunSpan(s: string, q: nat)
    requires q <= |s|
    ensures forall k :: q <= k < NewlineRun(s, q) ==> s[k] == '\n'
    decreases |s| - q
  {
    if q < |s| && s[q] == '\n' {
      NewlineRunSpan(s, q + 1);
    }
  }

  /** The text with every '\n' removed. */
  function WithoutNewlines(s: string): string {
    if s == [] then [] else (if s[0] == '\n' then [] else [s[0]]) + WithoutNewlines(s[1..])
  }

  lemma {:induction false} WithoutNewlinesAppend(a: string, b: string)
    ensures WithoutNewlines(a + b) == WithoutNewlines(a) + WithoutNewlines(b)
    decreases |a|
  {
    if a == [] {
      assert a + b == b;
    } else {
      assert (a + b)[0] == a[0] && (a + b)[1..] == a[1..] + b;
      WithoutNewlinesAppend(a[1..], b);
    }
  }

  lemma {:induction false} OnlyNewlines(a: string)
    requires forall k :: 0 <= k < |a| ==> a[k] == '\n'
    ensures WithoutNewlines(a) == []
    decreases |a|
  {
    if a != [] {
      OnlyNewlines(a[1..]);
    }
  }

  /** The newline collapse from position p on: no triple newline remains,
      and it is empty exactly at the end. */
  function CollapseFrom(s: string, p: nat): (r: string)
    requires p <= |s|
    ensures NoTriple(r)
    ensures (r == []) == (p == |s|)
    ensures r != [] ==> (r[0] == '\n' <==> s[p] == '\n')
    decreases |s| - p
  {
    if p == |s| then []
    else
      var e := NewlineRun(s, p);
      if e >= p + 2 then
        var rest := CollapseFrom(s, e);
        assert NoTriple("\n\n");
        NoTripleJoin("\n\n", rest);
        "\n\n" + rest
      else
        var rest := CollapseFrom(s, p + 1);
        assert NoTriple([s[p]]);
        NoTripleJoin([s[p]], rest);
        [s[p]] + rest
  }

  /** The collapse removes only '\n': the other characters are exactly those
      of `s[p..]`, in order. */
  lemma {:induction false} CollapseKeepsText(s: string, p: nat)
    requires p <= |s|
    ensures WithoutNewlines(CollapseFrom(s, p)) == WithoutNewlines(s[p..])
    decreases |s| - p
  {
    if p < |s| {
      if NewlineRun(s, p) >= p + 2 {
        CollapseKeepsText(s, NewlineRun(s, p));
        KeepsRun(s, p);
      } else {
        CollapseKeepsText(s, p + 1);
        KeepsChar(s, p);
      }
    }
  }

  /** One step of CollapseKeepsText at a run of '\n'. */
  lemma KeepsRun(s: string, p: nat)
    requires p < |s| && NewlineRun(s, p) >= p + 2
    requires WithoutNewlines(CollapseFrom(s, NewlineRun(s, p))) == WithoutNewlines(s[NewlineRun(s, p)..])
    ensures WithoutNewlines(CollapseFrom(s, p)) == WithoutNewlines(s[p..])
  {
    var e := NewlineRun(s, p);
    var rest := CollapseFrom(s, e);
    CollapseRunStep(s, p);
    assert WithoutNewlines("\n\n" + rest) == WithoutNewlines(rest) by {
      WithoutNewlinesAppend("\n\n", rest);
      OnlyNewlines("\n\n");
    }
    SkipNewlines(s, p);
  }

  /** Dropping the '\n' of a text from p on skips the run at p. */
  lemma SkipNewlines(s: string, p: nat)
    requires p <= |s|
    ensures WithoutNewlines(s[p..]) == WithoutNewlines(s[NewlineRun(s, p)..])
  {
    var e := NewlineRun(s, p);
    assert s[p..] == s[p..e] + s[e..];
    WithoutNewlinesAppend(s[p..e], s[e..]);
    NewlineRunSpan(s, p);
    OnlyNewlines(s[p..e]);
  }

  /** One step of CollapseKeepsText anywhere else. */
  lemma KeepsChar(s: string, p: nat)
    requires p < |s| && NewlineRun(s, p) < p + 2
    requires WithoutNewlines(CollapseFrom(s, p + 1)) == WithoutNewlines(s[p + 1..])
    ensures WithoutNewlines(CollapseFrom(s, p)) == WithoutNewlines(s[p..])
  {
    var rest := CollapseFrom(s, p + 1);
    var c := WithoutNewlines([s[p]]);
    assert WithoutNewlines(CollapseFrom(s, p)) == c + WithoutNewlines(rest) by {
      CollapseCharStep(s, p);
      WithoutNewlinesAppend([s[p]], rest);
    }
    assert WithoutNewlines(s[p..]) == c + WithoutNewlines(s[p + 1..]) by {
      assert s[p..] == [s[p]] + s[p + 1..];
      WithoutNewlinesAppend([s[p]], s[p + 1..]);
    }
  }

  /** `result.replace(/\n{2,}/g, '\n\n')`. */
  function CollapseNewlines(s: string): string {
    CollapseFrom(s, 0)
  }

  /** Text without '\n' is left as it is. */
  lemma {:induction false} NoNewlineFrom(s: string, p: nat)
    requires p <= |s|
    requires forall k :: p <= k < |s| ==> s[k] != '\n'
    ensures CollapseFrom(s, p) == s[p..]
    decreases |s| - p
  {
    if p < |s| {
      NoNewlineFrom(s, p + 1);
      assert s[p..] == [s[p]] + s[p + 1..];
    }
  }

  /** k newline characters. */
  function Newlines(k: nat): string {
    seq(k, _ => '\n')
  }

  /** One step of the collapse. */
  lemma CollapseUnfold(s: string, p: nat)
    requires p < |s|
    ensures CollapseFrom(s, p) == if NewlineRun(s, p) >= p + 2 then "\n\n" + CollapseFrom(s, NewlineRun(s, p))
      else [s[p]] + CollapseFrom(s, p + 1)
  {
  }

  /** One step of the collapse at a run of two or more '\n'. */
  lemma CollapseRunStep(s: string, p: nat)
    requires p < |s| && NewlineRun(s, p) >= p + 2
    ensures CollapseFrom(s, p) == "\n\n" + CollapseFrom(s, NewlineRun(s, p))
  {
  }

  /** One step of the collapse anywhere else. */
  lemma CollapseCharStep(s: string, p: nat)
    requires p < |s| && NewlineRun(s, p) < p + 2
    ensures CollapseFrom(s, p) == [s[p]] + CollapseFrom(s, p + 1)
  {
  }

  /** The collapse at a position looks only forward: a prefix in front
      does not change it. */
  lemma {:induction false} CollapseShift(x: string, y: string, q: nat)
    requires q <= |y|
    ensures CollapseFrom(x + y, |x| + q) == CollapseFrom(y, q)
    decreases |y| - q
  {
    if q < |y| {
      var e := NewlineRun(y, q);
      if e >= q + 2 {
        CollapseShift(x, y, e);
        RunShift(x, y, q);
      } else {
        CollapseShift(x, y, q + 1);
        CharShift(x, y, q);
      }
    }
  }

  /** One step of CollapseShift at a run of '\n'. */
  lemma RunShift(x: string, y: string, q: nat)
    requires q < |y| && NewlineRun(y, q) >= q + 2
    requires CollapseFrom(x + y, |x| + NewlineRun(y, q)) == CollapseFrom(y, NewlineRun(y, q))
    ensures CollapseFrom(x + y, |x| + q) == CollapseFrom(y, q)
  {
    NewlineRunShift(x, y, q);
    RunAgree(x + y, |x| + q, y, q, |x| + NewlineRun(y, q), NewlineRun(y, q));
  }

  /** One step of CollapseShift anywhere else. */
  lemma CharShift(x: string, y: string, q: nat)
    requires q < |y| && NewlineRun(y, q) < q + 2
    requires CollapseFrom(x + y, |x| + q + 1) == CollapseFrom(y, q + 1)
    ensures CollapseFrom(x + y, |x| + q) == CollapseFrom(y, q)
  {
    NewlineRunShift(x, y, q);
    assert (x + y)[|x| + q] == y[q];
    CharAgree(x + y, |x| + q, y, q);
  }

  /** Two runs of '\n' followed by collapses that agree. */
  lemma RunAgree(s: string, p: nat, t: string, q: nat, ds: nat, dt: nat)
    requires p < |s| && q < |t|
    requires NewlineRun(s, p) == ds >= p + 2 && NewlineRun(t, q) == dt >= q + 2
    requires CollapseFrom(s, ds) == CollapseFrom(t, dt)
    ensures CollapseFrom(s, p) == CollapseFrom(t, q)
  {
    CollapseRunStep(s, p);
    CollapseRunStep(t, q);
  }

  /** Two equal characters, not runs, followed by collapses that agree. */
  lemma CharAgree(s: string, p: nat, t: string, q: nat)
    requires p < |s| && q < |t| && s[p] == t[q]
    requires NewlineRun(s, p) < p + 2 && NewlineRun(t, q) < q + 2
    requires CollapseFrom(s, p + 1) == CollapseFrom(t, q + 1)
    ensures CollapseFrom(s, p) == CollapseFrom(t, q)
  {
    CollapseCharStep(s, p);
    CollapseCharStep(t, q);
  }

  lemma {:induction false} NewlineRunShift(x: string, y: string, q: nat)
    requires q <= |y|
    ensures NewlineRun(x + y, |x| + q) == |x| + NewlineRun(y, q)
    decreases |y| - q
  {
    if q < |y| {
      assert (x + y)[|x| + q] == y[q];
      NewlineRunShift(x, y, q + 1);
    }
  }

  /** A newline run inside a text that does not end in '\n' stops inside it,
      so the collapse of that text is a prefix of the collapse of any longer one. */
  lemma {:induction false} CollapsePrefix(a: string, r: string, p: nat)
    requires p <= |a|
    requires a == [] || a[|a| - 1] != '\n'
    ensures CollapseFrom(a + r, p) == CollapseFrom(a, p) + CollapseFrom(a + r, |a|)
    decreases |a| - p
  {
    if p < |a| {
      var s := a + r;
      NewlineRunPrefix(a, r, p);
      var e := NewlineRun(a, p);
      var v := CollapseFrom(s, |a|);
      if e >= p + 2 {
        assert CollapseFrom(s, p) == CollapseFrom(a, p) + v by {
          CollapsePrefix(a, r, e);
          var u := CollapseFrom(a, e);
          assert CollapseFrom(s, e) == u + v;
          CollapseRunStep(s, p);
          CollapseRunStep(a, p);
          AppendAssoc("\n\n", u, v);
        }
      } else {
        assert CollapseFrom(s, p) == CollapseFrom(a, p) + v by {
          assert s[p] == a[p];
          CollapsePrefix(a, r, p + 1);
          var u := CollapseFrom(a, p + 1);
          assert CollapseFrom(s, p + 1) == u + v;
          CollapseCharStep(s, p);
          CollapseCharStep(a, p);
          AppendAssoc([a[p]], u, v);
        }
      }
    }
  }

  lemma {:induction false} NewlineRunPrefix(a: string, r: string, p: nat)
    requires p < |a| && a[|a| - 1] != '\n'
    ensures NewlineRun(a + r, p) == NewlineRun(a, p) < |a|
    decreases |a| - p
  {
    assert (a + r)[p] == a[p];
    if a[p] == '\n' {
      NewlineRunPrefix(a, r, p + 1);
    }
  }

  /** The run of k newlines that starts at p ends at p + k. */
  lemma {:induction false} NewlineRunOf(s: string, p: nat, k: nat, q: nat)
    requires p <= q <= p + k <= |s|
    requires forall i :: p <= i < p + k ==> s[i] == '\n'
    requires p + k == |s| || s[p + k] != '\n'
    ensures NewlineRun(s, q) == p + k
    decreases p + k - q
  {
    if q < p + k {
      NewlineRunOf(s, p, k, q + 1);
    }
  }

  /** Line breaks are preserved: between two texts, a single '\n' stays as
      it is and a longer run of '\n' becomes exactly two. */
  lemma CollapseLineBreaks(a: string, k: nat, b: string)
    requires k >= 1
    requires a == [] || a[|a| - 1] != '\n'
    requires b == [] || b[0] != '\n'
    ensures CollapseNewlines(a + Newlines(k) + b) == CollapseNewlines(a) + Newlines(if k >= 2 then 2 else k) + CollapseNewlines(b)
  {
    var s := a + Newlines(k) + b;
    var p := |a|;
    assert s[..p] == a;
    assert s[p + k..] == b;
    assert forall i :: p <= i < p + k ==> s[i] == '\n';
    assert p > 0 ==> s[p - 1] == a[p - 1];
    assert p + k < |s| ==> s[p + k] == b[0];
    CollapseLineBreaksAt(s, p, k);
  }

  /** The same, for the run of k newlines at p inside s. */
  lemma CollapseLineBreaksAt(s: string, p: nat, k: nat)
    requires k >= 1 && p + k <= |s|
    requires forall i :: p <= i < p + k ==> s[i] == '\n'
    requires p == 0 || s[p - 1] != '\n'
    requires p + k == |s| || s[p + k] != '\n'
    ensures CollapseNewlines(s) == CollapseNewlines(s[..p]) + Newlines(if k >= 2 then 2 else k) + CollapseNewlines(s[p + k..])
  {
    var m := Newlines(if k >= 2 then 2 else k);
    var ca, cb := CollapseFrom(s[..p], 0), CollapseFrom(s[p + k..], 0);
    assert CollapseFrom(s, 0) == ca + CollapseFrom(s, p) by {
      var a, r := s[..p], s[p..];
      SplitAt(s, p);
      assert p > 0 ==> a[p - 1] == s[p - 1];
      CollapsePrefix(a, r, 0);
    }
    assert CollapseFrom(s, p) == m + cb by {
      var x, b := s[..p + k], s[p + k..];
      SplitAt(s, p + k);
      assert forall i :: p <= i < |x| ==> x[i] == s[i];
      assert b != [] ==> b[0] == s[p + k];
      CollapseRunThenText(x, p, k, b);
    }
    AppendAssoc(ca, m, cb);
  }

  lemma SplitAt(s: string, i: nat)
    requires i <= |s|
    ensures s == s[..i] + s[i..]
  {
  }

  lemma AppendAssoc(u: string, v: string, w: string)
    ensures u + (v + w) == u + v + w
  {
  }

  /** From the start of a run of k newlines that ends the text x, the collapse
      is that run shortened to at most two, then the collapse of what follows. */
  lemma CollapseRunThenText(x: string, p: nat, k: nat, b: string)
    requires k >= 1 && p + k == |x|
    requires forall i :: p <= i < |x| ==> x[i] == '\n'
    requires b == [] || b[0] != '\n'
    ensures CollapseFrom(x + b, p) == Newlines(if k >= 2 then 2 else k) + CollapseFrom(b, 0)
  {
    var s := x + b;
    assert forall i :: p <= i < p + k ==> s[i] == '\n';
    assert p + k < |s| ==> s[p + k] == b[0];
    NewlineRunOf(s, p, k, p);
    CollapseShift(x, b, 0);
    if k >= 2 {
      CollapseRunStep(s, p);
      assert Newlines(2) == "\n\n";
    } else {
      CollapseCharStep(s, p);
      assert [s[p]] == Newlines(1);
    }
  }

  /** `specialChars`, in the order the loop visits them. */
  const SPECIAL: seq<char> := ['\\', '`', '*', '_', '{', '}', '[', ']', '(', ')', '#', '+', '-', '.', '!']

  lemma SpecialDistinct()
    ensures forall i, j :: 0 <= i < j < |SPECIAL| ==> SPECIAL[i] != SPECIAL[j]
  {
  }

  function EscapeChar(c: char, cs: seq<char>): string {
    if c in cs then ['\\', c] else [c]
  }

  /** The character at i, when it is in cs and is not '\', follows a '\'. */
  predicate EscapedAt(r: string, cs: seq<char>, i: int) {
    0 <= i < |r| && r[i] in cs && r[i] != '\\' ==> 0 < i && r[i - 1] == '\\'
  }

  /** Every character of cs other than '\' is directly preceded by '\'. */
  predicate Escaped(r: string, cs: seq<char>) {
    forall i :: 0 <= i < |r| ==> EscapedAt(r, cs, i)
  }

  /** One pass that puts a '\' before every character of s that is in cs. */
  function Escape(s: string, cs: seq<char>): (r: string)
    ensures |r| >= |s|
    ensures Escaped(r, cs)
    ensures '\n' !in cs ==> (r != [] && r[0] == '\n' <==> s != [] && s[0] == '\n')
    decreases |s|
  {
    if s == [] then []
    else
      var head, rest := EscapeChar(s[0], cs), Escape(s[1..], cs);
      var r := head + rest;
      forall i | 0 <= i < |r|
        ensures EscapedAt(r, cs, i)
      {
        if i >= |head| {
          assert r[i] == rest[i - |head|] && EscapedAt(rest, cs, i - |head|);
          assert i > |head| ==> r[i - 1] == rest[i - 1 - |head|];
        }
      }
      r
  }

  lemma {:induction false} EscapeAppend(a: string, b: string, cs: seq<char>)
    ensures Escape(a + b, cs) == Escape(a, cs) + Escape(b, cs)
    decreases |a|
  {
    if a != [] {
      assert (a + b)[0] == a[0] && (a + b)[1..] == a[1..] + b;
      EscapeAppend(a[1..], b, cs);
    } else {
      assert a + b == b;
    }
  }

  /** Text none of whose characters is in cs is left as it is. */
  lemma {:induction false} EscapeUntouched(s: string, cs: seq<char>)
    requires forall i :: 0 <= i < |s| ==> s[i] !in cs
    ensures Escape(s, cs) == s
    decreases |s|
  {
    if s != [] {
      EscapeUntouched(s[1..], cs);
      assert s == [s[0]] + s[1..];
    }
  }

  /** One `replace` of the loop after the earlier ones: escaping c on top of
      an escape of cs is one escape of `cs + [c]`, provided c is new and is
      not '\' (whose own escapes it would otherwise double) unless it
      comes first. */
  lemma {:induction false} EscapeStep(s: string, cs: seq<char>, c: char)
    requires c !in cs
    requires c != '\\' || cs == []
    ensures Escape(Escape(s, cs), [c]) == Escape(s, cs + [c])
    decreases |s|
  {
    if s != [] {
      var head, rest := EscapeChar(s[0], cs), Escape(s[1..], cs);
      EscapeAppend(head, rest, [c]);
      EscapeStep(s[1..], cs, c);
      if s[0] in cs {
        assert head == ['\\'] + [s[0]];
        EscapeAppend(['\\'], [s[0]], [c]);
        assert Escape(['\\'], [c]) == ['\\'];
        assert Escape([s[0]], [c]) == [s[0]];
      } else {
        assert Escape([s[0]], [c]) == EscapeChar(s[0], [c]);
      }
      assert Escape(head, [c]) == EscapeChar(s[0], cs + [c]);
    }
  }

  /** Dropping the '\' in front of every escaped character. */
  function Unescape(r: string): string
    decreases |r|
  {
    if r == [] then []
    else if r[0] == '\\' && |r| >= 2 then [r[1]] + Unescape(r[2..])
    else [r[0]] + Unescape(r[1..])
  }

  /** The escape loses nothing when '\' itself is escaped. */
  lemma {:induction false} UnescapeEscape(s: string, cs: seq<char>)
    requires '\\' in cs
    ensures Unescape(Escape(s, cs)) == s
    decreases |s|
  {
    if s != [] {
      var head, rest := EscapeChar(s[0], cs), Escape(s[1..], cs);
      UnescapeEscape(s[1..], cs);
      if s[0] in cs {
        assert (head + rest)[2..] == rest;
      } else {
        assert (head + rest)[1..] == rest;
      }
      assert s == [s[0]] + s[1..];
    }
  }

  /** Escaping adds no newline, so it keeps the text free of triple
      newlines. */
  lemma {:induction false} EscapeNoTriple(s: string, cs: seq<char>)
    requires '\n' !in cs && NoTriple(s)
    ensures NoTriple(Escape(s, cs))
    decreases |s|
  {
    if s != [] {
      var head, rest := EscapeChar(s[0], cs), Escape(s[1..], cs);
      assert NoTriple(s[1..]) by {
        assert forall i :: 0 <= i < |s[1..]| ==> s[1..][i] == s[i + 1];
        assert forall i :: TripleAt(s[1..], i) ==> TripleAt(s, i + 1);
      }
      EscapeNoTriple(s[1..], cs);
      if s[0] == '\n' && rest != [] && rest[0] == '\n' {
        var rest2 := Escape(s[2..], cs);
        assert s[1..][1..] == s[2..];
        assert rest == ['\n'] + rest2;
        assert !TripleAt(s, 0);
        assert NoTriple(s[2..]) by {
          assert forall i :: 0 <= i < |s[2..]| ==> s[2..][i] == s[i + 2];
          assert forall i :: TripleAt(s[2..], i) ==> TripleAt(s, i + 2);
        }
        EscapeNoTriple(s[2..], cs);
        assert NoTriple("\n\n");
        NoTripleJoin("\n\n", rest2);
        assert head + rest == "\n\n" + rest2;
      } else {
        assert NoTriple(head);
        NoTripleJoin(head, rest);
      }
    }
  }

  /** `trim` keeps the text free of triple newlines. */
  lemma TrimNoTriple(s: string)
    requires NoTriple(s)
    ensures NoTriple(Trim(s))
  {
    var r, i := Trim(s), LeadingWhitespace(s);
    assert forall k :: 0 <= k < |r| ==> r[k] == s[i + k];
    forall k | 0 <= k < |r|
      ensures !TripleAt(r, k)
    {
      assert !TripleAt(s, i + k);
    }
  }

  /** `trim` keeps every escape, since '\' is not white space. */
  lemma TrimEscaped(s: string, cs: seq<char>)
    requires Escaped(s, cs)
    ensures Escaped(Trim(s), cs)
  {
    forall k | 0 <= k < |Trim(s)|
      ensures EscapedAt(Trim(s), cs, k)
    {
      TrimEscapedAt(s, cs, k);
    }
  }

  /** One position of the lemma above: an escaped character cannot be the
      first character left by `trim`, since its '\' is not white space. */
  lemma TrimEscapedAt(s: string, cs: seq<char>, k: nat)
    requires Escaped(s, cs) && k < |Trim(s)|
    ensures EscapedAt(Trim(s), cs, k)
  {
    var r, i := Trim(s), LeadingWhitespace(s);
    assert r[k] == s[i + k];
    if r[k] in cs && r[k] != '\\' {
      assert EscapedAt(s, cs, i + k);
      assert !IsWhitespace(s[i + k - 1]);
      assert r[k - 1] == s[i + k - 1];
    }
  }

  /** `trim` leaves text that neither starts nor ends with white space. */
  lemma TrimUntouched(s: string)
    requires s != [] && !IsWhitespace(s[0]) && !IsWhitespace(s[|s| - 1])
    ensures Trim(s) == s
  {
    var r, i := Trim(s), LeadingWhitespace(s);
    assert i == 0;
    assert r == s[..|r|];
  }

  /** The first three passes, before the escape loop. */
  function Rewritten(text: string): string {
    CollapseNewlines(BulletPass(HeaderPass(text)))
  }

  /** What the function returns, as its steps compose. */
  function Markdown(text: string): string {
    Trim(Escape(Rewritten(text), SPECIAL))
  }

  /** One round of the loop: because '\' is first in the list and the list
      has no repeats, replacing the next character extends the escape by
      that character. */
  lemma EscapeLoopStep(s: string, i: nat)
    requires i < |SPECIAL|
    ensures Escape(Escape(s, SPECIAL[..i]), [SPECIAL[i]]) == Escape(s, SPECIAL[..i + 1])
  {
    SpecialDistinct();
    var c := SPECIAL[i];
    assert c !in SPECIAL[..i] by {
      assert forall j :: 0 <= j < i ==> SPECIAL[..i][j] == SPECIAL[j];
    }
    assert i > 0 ==> c != SPECIAL[0];
    assert SPECIAL[..i + 1] == SPECIAL[..i] + [c];
    EscapeStep(s, SPECIAL[..i], c);
  }

  /** What the result promises: every listed character, the inserted "## "
      and "- " included, follows a '\'; no three newlines in a row; no
      white space at either end; and the escape loses nothing. */
  lemma MarkdownProperties(text: string)
    ensures Escaped(Markdown(text), SPECIAL)
    ensures NoTriple(Markdown(text))
    ensures Unescape(Escape(Rewritten(text), SPECIAL)) == Rewritten(text)
  {
    var m := Rewritten(text);
    assert '\n' !in SPECIAL;
    UnescapeEscape(m, SPECIAL);
    EscapeNoTriple(m, SPECIAL);
    TrimNoTriple(Escape(m, SPECIAL));
    TrimEscaped(Escape(m, SPECIAL), SPECIAL);
  }

  /** `convertResumeTextToMarkdown`: three replacements, the escape loop
      over the fifteen characters, and `trim`. */
  method ConvertResumeTextToMarkdown(text: string) returns (r: string)
    ensures r == Markdown(text)
    ensures Escaped(r, SPECIAL) && NoTriple(r)
    ensures r == [] || (!IsWhitespace(r[0]) && !IsWhitespace(r[|r| - 1]))
  {
    var result := HeaderPass(text);
    result := BulletPass(result);
    result := CollapseNewlines(result);
    ghost var rewritten := result;
    EscapeUntouched(rewritten, []);
    for i := 0 to |SPECIAL|
      invariant result == Escape(rewritten, SPECIAL[..i])
    {
      EscapeLoopStep(rewritten, i);
      result := Escape(result, [SPECIAL[i]]);
    }
    assert SPECIAL[..|SPECIAL|] == SPECIAL;
    r := Trim(result);
    MarkdownProperties(text);
  }

  /** A line of two or more upper-case letters and nothing else. */
  predicate IsCapsWord(w: string) {
    |w| >= 2 && forall i :: 0 <= i < |w| ==> IsAsciiUpper(w[i])
  }

  /** The marked header of a one-word line, before any escaping. */
  lemma MarkedHeader(w: string)
    requires IsCapsWord(w)
    ensures HeaderPass(w) == "## " + w
    ensures BulletPass("## " + w) == "## " + w
    ensures CollapseNewlines("## " + w) == "## " + w
    ensures Escape(w, SPECIAL) == w
  {
    assert HeaderMatch(w, 0, |w|);
    WholeHeader(w);
    MarkerLine(w);
    CapsUnescaped(w);
  }

  lemma MarkerLine(w: string)
    requires IsCapsWord(w)
    ensures BulletPass("## " + w) == "## " + w
    ensures CollapseNewlines("## " + w) == "## " + w
  {
    var h := "## " + w;
    assert h[0] == '#';
    assert forall k :: 0 <= k < |h| ==> IsAsciiUpper(h[k]) || h[k] == '#' || h[k] == ' ' by {
      assert forall k :: 3 <= k < |h| ==> h[k] == w[k - 3];
    }
    assert forall k :: 0 <= k < |h| ==> !BulletAt(h, k);
    NoBulletFrom(h, 0);
    NoNewlineFrom(h, 0);
  }

  lemma CapsUnescaped(w: string)
    requires IsCapsWord(w)
    ensures Escape(w, SPECIAL) == w
  {
    forall i | 0 <= i < |w|
      ensures w[i] !in SPECIAL
    {
      assert IsAsciiUpper(w[i]);
    }
    EscapeUntouched(w, SPECIAL);
  }

  lemma EscapeMarker()
    ensures Escape("## ", SPECIAL) == "\\#\\# "
  {
    var m := "## ";
    assert m[1..] == "# " && m[1..][1..] == " " && m[1..][1..][1..] == [];
    assert '#' in SPECIAL && ' ' !in SPECIAL;
    assert Escape(" ", SPECIAL) == " ";
    assert Escape("# ", SPECIAL) == "\\# ";
  }

  /** As written, the escape loop runs after the markers are inserted, so
      a header line comes out with its "##" escaped: a literal "##", not a
      Markdown heading. The same happens to the "- " of a bullet. */
  lemma HeaderMarkerEscaped(w: string)
    requires IsCapsWord(w)
    ensures Markdown(w) == "\\#\\# " + w
  {
    RewrittenHeader(w);
    EscapedHeader(w);
    EscapedHeadingTrimmed(w);
  }

  lemma EscapedHeadingTrimmed(w: string)
    requires IsCapsWord(w)
    ensures Trim("\\#\\# " + w) == "\\#\\# " + w
  {
    var h := "\\#\\# " + w;
    assert h[|h| - 1] == w[|w| - 1];
    TrimUntouched(h);
  }

  lemma RewrittenHeader(w: string)
    requires IsCapsWord(w)
    ensures Rewritten(w) == "## " + w
  {
    MarkedHeader(w);
  }

  lemma EscapedHeader(w: string)
    requires IsCapsWord(w)
    ensures Escape("## " + w, SPECIAL) == "\\#\\# " + w
  {
    CapsUnescaped(w);
    EscapeAppend("## ", w, SPECIAL);
    EscapeMarker();
  }

  /** The single line "EXPERIENCE" becomes `\#\# EXPERIENCE`. */
  lemma ExperienceExample(w: string)
    requires w == "EXPERIENCE"
    ensures Markdown(w) == "\\#\\# " + w
  {
    assert IsCapsWord(w) by {
      assert forall i :: 0 <= i < |w| ==> 'A' <= w[i] <= 'Z';
    }
    HeaderMarkerEscaped(w);
  }

  /** The conversion with the text escaped before the markers are
      inserted, so that the markers stay Markdown syntax. */
  function IntendedMarkdown(text: string): string {
    Trim(CollapseNewlines(BulletPass(HeaderPass(Escape(text, SPECIAL)))))
  }

  /** With the escape first, a header line becomes a Markdown heading. */
  lemma IntendedHeading(w: string)
    requires IsCapsWord(w)
    ensures IntendedMarkdown(w) == "## " + w
  {
    IntendedRewrite(w);
    HeadingTrimmed(w);
  }

  lemma HeadingTrimmed(w: string)
    requires IsCapsWord(w)
    ensures Trim("## " + w) == "## " + w
  {
    var h := "## " + w;
    assert h[|h| - 1] == w[|w| - 1];
    TrimUntouched(h);
  }

  lemma IntendedRewrite(w: string)
    requires IsCapsWord(w)
    ensures CollapseNewlines(BulletPass(HeaderPass(Escape(w, SPECIAL)))) == "## " + w
  {
    MarkedHeader(w);
  }
}

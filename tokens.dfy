/**
 * The token structure of an element's `className`: the whitespace that
 * JavaScript regular expressions match with `\s`, the whitespace-separated
 * tokens of a string, `trim` as the polyfill writes it, and
 * `String.prototype.split(/\s+/)`.
 */
module ClassTokens {

  /**
   * `\s` in an ECMAScript regular expression: WhiteSpace (tab, vertical tab,
   * form feed, space, no-break space, the Unicode space separators, byte
   * order mark) and LineTerminator (line feed, carriage return, line and
   * paragraph separators).
   */
  predicate IsSpace(c: char) {
    var k := c as int;
    (0x09 <= k <= 0x0D) || k == 0x20 || k == 0xA0 || k == 0x1680 ||
    (0x2000 <= k <= 0x200A) || k == 0x2028 || k == 0x2029 || k == 0x202F ||
    k == 0x205F || k == 0x3000 || k == 0xFEFF
  }

  predicate AllSpace(s: string) {
    forall i :: 0 <= i < |s| ==> IsSpace(s[i])
  }

  predicate NoSpace(s: string) {
    forall i :: 0 <= i < |s| ==> !IsSpace(s[i])
  }

  /** A class token: a non-empty run of non-whitespace characters. */
  predicate IsToken(s: string) {
    s != [] && NoSpace(s)
  }

  /** A string with no whitespace at either end (what `trim` produces). */
  predicate Trimmed(s: string) {
    s == [] || (!IsSpace(s[0]) && !IsSpace(s[|s| - 1]))
  }

  /** Length of the leading run of non-whitespace characters. */
  function WordLen(s: string): (k: nat)
    ensures k <= |s| && NoSpace(s[..k])
    ensures k < |s| ==> IsSpace(s[k])
  {
    if s == [] || IsSpace(s[0]) then 0 else 1 + WordLen(s[1..])
  }

  /** Length of the leading run of whitespace characters (what a greedy `\s+` or `\s*` consumes). */
  function SpaceLen(s: string): (k: nat)
    ensures k <= |s| && AllSpace(s[..k])
    ensures k < |s| ==> !IsSpace(s[k])
  {
    if s == [] || !IsSpace(s[0]) then 0 else 1 + SpaceLen(s[1..])
  }

  /** The whitespace-separated tokens of `s`, left to right. */
  function Tokens(s: string): (ts: seq<string>)
    ensures forall i :: 0 <= i < |ts| ==> IsToken(ts[i])
    decreases |s|
  {
    if s == [] then []
    else if IsSpace(s[0]) then Tokens(s[1..])
    else
      var k := WordLen(s);
      [s[..k]] + Tokens(s[k..])
  }

  /** A leading run is determined by where it stops. */
  lemma {:induction false} WordLenUnique(s: string, k: nat)
    requires k <= |s| && NoSpace(s[..k]) && (k < |s| ==> IsSpace(s[k]))
    ensures WordLen(s) == k
  {
    if k > 0 {
      assert s[..k][0] == s[0];
      assert s[1..][..k - 1] == s[..k][1..];
      WordLenUnique(s[1..], k - 1);
    }
  }

  lemma {:induction false} SpaceLenUnique(s: string, k: nat)
    requires k <= |s| && AllSpace(s[..k]) && (k < |s| ==> !IsSpace(s[k]))
    ensures SpaceLen(s) == k
  {
    if k > 0 {
      assert s[..k][0] == s[0];
      assert s[1..][..k - 1] == s[..k][1..];
      SpaceLenUnique(s[1..], k - 1);
    }
  }

  /** The first word of `x + y` is the first word of `x` when that word ends inside `x` or `y` starts with whitespace. */
  lemma WordLenAppend(x: string, y: string)
    requires WordLen(x) < |x| || (y != [] && IsSpace(y[0]))
    ensures WordLen(x + y) == WordLen(x)
  {
    var k := WordLen(x);
    assert (x + y)[..k] == x[..k];
    if k < |x| {
      assert (x + y)[k] == x[k];
    } else {
      assert (x + y)[k] == y[0];
    }
    WordLenUnique(x + y, k);
  }

  /** One step of `Tokens` on a string that starts with whitespace. */
  lemma TokensSpaceStep(s: string)
    requires s != [] && IsSpace(s[0])
    ensures Tokens(s) == Tokens(s[1..])
  {
  }

  /** One step of `Tokens` on a string that starts with a word of length `k`. */
  lemma TokensWordStep(s: string, k: nat)
    requires s != [] && !IsSpace(s[0]) && k == WordLen(s)
    ensures Tokens(s) == [s[..k]] + Tokens(s[k..])
  {
  }

  /** Leading whitespace does not contribute tokens. */
  lemma {:induction false} TokensSpacePrefix(w: string, z: string)
    requires AllSpace(w)
    ensures Tokens(w + z) == Tokens(z)
    decreases |w|
  {
    if w == [] {
      assert w + z == z;
    } else {
      assert (w + z)[0] == w[0];
      assert (w + z)[1..] == w[1..] + z;
      TokensSpacePrefix(w[1..], z);
    }
  }

  /** A non-empty whitespace run separates the tokens on its left from those on its right. */
  lemma {:induction false} TokensJoin(x: string, w: string, z: string)
    requires AllSpace(w) && w != []
    ensures Tokens(x + w + z) == Tokens(x) + Tokens(z)
    decreases |x|, 1
  {
    if x == [] {
      assert x + w + z == w + z;
      TokensSpacePrefix(w, z);
    } else if IsSpace(x[0]) {
      JoinAfterSpace(x, w, z);
    } else {
      JoinAfterWord(x, w, z);
    }
  }

  lemma {:induction false} JoinAfterSpace(x: string, w: string, z: string)
    requires AllSpace(w) && w != [] && x != [] && IsSpace(x[0])
    ensures Tokens(x + w + z) == Tokens(x) + Tokens(z)
    decreases |x|, 0
  {
    var all := x + w + z;
    var rest := x[1..];
    assert all[0] == x[0];
    assert all[1..] == rest + w + z;
    TokensSpaceStep(all);
    TokensSpaceStep(x);
    TokensJoin(rest, w, z);
  }

  lemma {:induction false} JoinAfterWord(x: string, w: string, z: string)
    requires AllSpace(w) && w != [] && x != [] && !IsSpace(x[0])
    ensures Tokens(x + w + z) == Tokens(x) + Tokens(z)
    decreases |x|, 0
  {
    var k := WordLen(x);
    var wz := w + z;
    var all := x + wz;
    var rest := x[k..];
    assert x + w + z == all;
    assert rest + w + z == rest + wz;
    assert wz[0] == w[0];
    WordLenAppend(x, wz);
    AppendSlices(x, wz, k);
    TokensWordStep(all, k);
    TokensWordStep(x, k);
    TokensJoin(rest, w, z);
  }

  lemma AppendSlices(x: string, y: string, k: nat)
    requires k <= |x|
    ensures (x + y)[..k] == x[..k] && (x + y)[k..] == x[k..] + y
  {
  }

  /** Trailing whitespace does not contribute tokens. */
  lemma TokensSpaceSuffix(x: string, w: string)
    requires AllSpace(w)
    ensures Tokens(x + w) == Tokens(x)
  {
    if w == [] {
      assert x + w == x;
    } else {
      assert x + w + [] == x + w;
      TokensJoin(x, w, []);
    }
  }

  /** A token followed by whitespace (or nothing) is the first token. */
  lemma TokensWord(n: string, z: string)
    requires IsToken(n) && (z == [] || IsSpace(z[0]))
    ensures Tokens(n + z) == [n] + Tokens(z)
  {
    if z == [] {
      assert n + z == n;
      WordLenUnique(n, |n|);
    } else {
      WordLenUnique(n, |n|);
      WordLenAppend(n, z);
    }
    assert (n + z)[0] == n[0];
    assert (n + z)[..|n|] == n;
    assert (n + z)[|n|..] == z;
  }

  /** The tokens of a single class name are that name. */
  lemma TokensOfToken(n: string)
    requires IsToken(n)
    ensures Tokens(n) == [n]
  {
    TokensWord(n, []);
    assert n + [] == n;
  }

  // ---------------------------------------------------------------------------
  // trim: s.replace(/^\s+|\s+$/g, '')
  // ---------------------------------------------------------------------------

  /** Length of the trailing run of whitespace characters. */
  function TrailingSpaceLen(s: string): (k: nat)
    ensures k <= |s| && AllSpace(s[|s| - k..])
    ensures k < |s| ==> !IsSpace(s[|s| - k - 1])
  {
    if s == [] || !IsSpace(s[|s| - 1]) then 0
    else
      var p := s[..|s| - 1];
      var k := TrailingSpaceLen(p);
      TrailingStep(s, p, k);
      k + 1
  }

  /** Dropping the last character of `s` shifts its suffixes by one. */
  lemma TrailingStep(s: string, p: string, k: nat)
    requires s != [] && p == s[..|s| - 1] && k <= |p|
    requires AllSpace(p[|p| - k..]) && IsSpace(s[|s| - 1])
    ensures AllSpace(s[|s| - (k + 1)..])
    ensures k < |p| ==> s[|s| - (k + 1) - 1] == p[|p| - k - 1]
  {
    var tail := s[|s| - (k + 1)..];
    var ptail := p[|p| - k..];
    assert tail == ptail + [s[|s| - 1]];
    assert forall i :: 0 <= i < |tail| ==> tail[i] == if i < |ptail| then ptail[i] else s[|s| - 1];
  }

  /** What the alternative `^\s+` removes: the leading whitespace. */
  function TrimStart(s: string): string {
    s[SpaceLen(s)..]
  }

  /** What the alternative `\s+$` removes: the trailing whitespace. */
  function TrimEnd(s: string): string {
    s[..|s| - TrailingSpaceLen(s)]
  }

  /**
   * The polyfill's `trim`. With the `g` flag both alternatives are applied:
   * `^\s+` strips the leading run and `\s+$` the trailing one (for a string
   * that is all whitespace the first alternative already takes everything).
   */
  function Trim(s: string): (r: string)
    ensures Trimmed(r) && |r| <= |s|
  {
    var i := SpaceLen(s);
    var t := s[i..];
    var k := TrailingSpaceLen(t);
    var r := t[..|t| - k];
    TrimmedMiddle(s, i, t, k, r);
    TrimEnd(TrimStart(s))
  }

  /** What is left between the two whitespace runs starts and ends with a class-name character. */
  lemma TrimmedMiddle(s: string, i: nat, t: string, k: nat, r: string)
    requires i == SpaceLen(s) && t == s[i..] && k == TrailingSpaceLen(t) && r == t[..|t| - k]
    ensures Trimmed(r)
  {
    if r != [] {
      assert t[0] == s[i];
      assert r[0] == t[0];
      assert r[|r| - 1] == t[|t| - k - 1];
    }
  }

  /** A prefix `r` of the suffix `t == s[i..]` is the slice `s[i..i + |r|]`, and what follows it in `t` is the rest of `s`. */
  lemma PrefixOfSuffix(s: string, t: string, r: string, i: nat, j: nat)
    requires i <= |s| && t == s[i..] && |r| <= |t| && r == t[..|r|] && j == i + |r|
    ensures r == s[i..j] && t[|r|..] == s[j..]
  {
  }

  /** `trim` removes whitespace at the two ends and nothing else. */
  lemma TrimParts(s: string) returns (i: nat, j: nat)
    ensures i <= j <= |s| && Trim(s) == s[i..j]
    ensures AllSpace(s[..i]) && AllSpace(s[j..])
  {
    i := SpaceLen(s);
    var t := s[i..];
    var k := TrailingSpaceLen(t);
    j := i + (|t| - k);
    var r := t[..|t| - k];
    assert TrimStart(s) == t;
    assert TrimEnd(t) == r;
    PrefixOfSuffix(s, t, r, i, j);
    assert s[j..] == t[|t| - k..];
  }

  /** `trim` keeps a string that has no whitespace at its ends. */
  lemma TrimOfTrimmed(s: string)
    requires Trimmed(s)
    ensures Trim(s) == s
  {
  }

  /** A string is the concatenation of its three slices at `i` and `j`. */
  lemma ThreeSlices(s: string, i: nat, j: nat)
    requires i <= j <= |s|
    ensures s == s[..i] + (s[i..j] + s[j..])
  {
  }

  /** `trim` keeps the tokens. */
  lemma TrimTokens(s: string)
    ensures Tokens(Trim(s)) == Tokens(s)
  {
    var i, j := TrimParts(s);
    var lead, middle, trail := s[..i], s[i..j], s[j..];
    ThreeSlices(s, i, j);
    TokensSpacePrefix(lead, middle + trail);
    TokensSpaceSuffix(middle, trail);
    assert Trim(s) == middle;
  }

  // ---------------------------------------------------------------------------
  // className.split(/\s+/)
  // ---------------------------------------------------------------------------

  /**
   * `String.prototype.split(/\s+/)`: the pieces between maximal whitespace
   * runs, including an empty first piece for leading whitespace, an empty
   * last piece for trailing whitespace, and `[""]` for the empty string.
   */
  function SplitWs(s: string): (ps: seq<string>)
    ensures |ps| >= 1
    ensures forall i :: 0 <= i < |ps| ==> NoSpace(ps[i])
    decreases |s|
  {
    var w := WordLen(s);
    if w == |s| then [s]
    else
      var t := s[w..];
      assert IsSpace(t[0]);
      [s[..w]] + SplitWs(TrimStart(t))
  }

  /** A whitespace run stops before a last character that is not whitespace. */
  lemma {:induction false} SpaceLenBeforeLast(t: string)
    requires t != [] && !IsSpace(t[|t| - 1])
    ensures SpaceLen(t) < |t|
    decreases |t|
  {
    if IsSpace(t[0]) {
      assert t[1..][|t[1..]| - 1] == t[|t| - 1];
      SpaceLenBeforeLast(t[1..]);
    }
  }

  /** The gap after the first word of a trimmed string that has more than one word ends inside it. */
  lemma GapInside(s: string, w: nat) returns (gap: nat, rest: string)
    requires Trimmed(s) && s != [] && w == WordLen(s) < |s|
    ensures gap == SpaceLen(s[w..]) && w + gap < |s| && rest == s[w + gap..] && rest == TrimStart(s[w..])
    ensures Trimmed(rest) && rest != []
    ensures Tokens(s[w..]) == Tokens(rest)
  {
    var t := s[w..];
    assert t[|t| - 1] == s[|s| - 1];
    SpaceLenBeforeLast(t);
    gap := SpaceLen(t);
    rest := t[gap..];
    var run := t[..gap];
    assert rest == s[w + gap..];
    assert t == run + rest;
    assert rest[0] == t[gap];
    assert rest[|rest| - 1] == s[|s| - 1];
    TokensSpacePrefix(run, rest);
  }

  /** One step of `SplitWs` on a string whose first word ends inside it. */
  lemma SplitWsStep(s: string, w: nat, rest: string)
    requires w == WordLen(s) < |s| && rest == TrimStart(s[w..])
    ensures SplitWs(s) == [s[..w]] + SplitWs(rest)
  {
  }

  /** On a trimmed className the split pieces are exactly the tokens. */
  lemma {:induction false} SplitTrimmed(s: string)
    requires Trimmed(s) && s != []
    ensures SplitWs(s) == Tokens(s)
    decreases |s|
  {
    var w := WordLen(s);
    TokensWordStep(s, w);
    var first := s[..w];
    if w == |s| {
      assert first == s;
      assert s[w..] == [];
      assert Tokens(s) == [s];
    } else {
      var gap, rest := GapInside(s, w);
      SplitWsStep(s, w, rest);
      SplitTrimmed(rest);
      assert SplitWs(s) == [first] + SplitWs(rest);
      assert Tokens(s) == [first] + Tokens(rest);
    }
  }
}

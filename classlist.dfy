/**
 * The `classList` polyfill: a `ClassList` object wraps an element and edits
 * its whitespace-separated `className` in place.
 *
 * `contains` and `remove` go through the regular expression
 * `(^|\s+)name(\s+|$)` built by the `regExp` helper. The model decides that
 * pattern literally (MatchAt, Search) and then proves what it means for the
 * tokens of the class name (Tokens).
 */
module ClassListPolyfill {
  import opened Wrappers
  import opened ClassTokens

  // ---------------------------------------------------------------------------
  // regExp(name) = new RegExp('(^|\\s+)' + name + '(\\s+|$)')
  // ---------------------------------------------------------------------------

  /**
   * The tail `name(\s+|$)` of the pattern, tried at position `q`: the end of
   * the match. The greedy `\s+` takes the whole whitespace run; `$` is tried
   * only when no whitespace follows.
   */
  function NameThenBoundary(s: string, q: nat, name: string): (m: Option<nat>)
    requires q <= |s|
    ensures m.Some? ==> q + |name| <= m.value <= |s|
  {
    var e := q + |name|;
    if e <= |s| && s[q..e] == name then
      if e < |s| && IsSpace(s[e]) then Some(e + SpaceLen(s[e..]))
      else if e == |s| then Some(e)
      else None
    else None
  }

  /**
   * The alternative `\s+` at position `p` after it has taken `r` whitespace
   * characters: the rest of the pattern is tried there, and on failure the
   * engine gives back one character and tries again, down to a run of one.
   */
  function GiveBack(s: string, p: nat, r: nat, name: string): (m: Option<nat>)
    requires p + r <= |s|
    ensures m.Some? ==> p < m.value <= |s|
    decreases r
  {
    if r == 0 then None
    else
      match NameThenBoundary(s, p + r, name)
      case Some(e) => Some(e)
      case None => GiveBack(s, p, r - 1, name)
  }

  /**
   * The whole pattern tried at start position `p`, in the engine's
   * backtracking order: first the alternative `^` (only at position 0), then
   * the greedy `\s+`, which starts with the whole whitespace run and gives
   * characters back. Giving back matters only for a name that is empty or
   * starts with whitespace (see MatchAtOfToken).
   */
  function MatchAt(s: string, p: nat, name: string): (m: Option<nat>)
    requires p <= |s|
    ensures m.Some? ==> p <= m.value <= |s|
  {
    var anchored := if p == 0 then NameThenBoundary(s, 0, name) else None;
    if anchored.Some? then anchored
    else if p < |s| && IsSpace(s[p]) then GiveBack(s, p, SpaceLen(s[p..]), name)
    else None
  }

  /** Inside a whitespace run a class name cannot start, so giving back never finds a match there. */
  lemma {:induction false} GiveBackInRun(s: string, p: nat, r: nat, name: string)
    requires IsToken(name) && p + r < |s|
    requires forall k :: p < k <= p + r ==> IsSpace(s[k])
    ensures GiveBack(s, p, r, name) == None
    decreases r
  {
    if r > 0 {
      var q := p + r;
      if q + |name| <= |s| {
        assert s[q..q + |name|][0] == s[q];
      }
      assert NameThenBoundary(s, q, name) == None;
      GiveBackInRun(s, p, r - 1, name);
    }
  }

  /** When the shorter runs fail, the longest run decides. */
  lemma GiveBackWhole(s: string, p: nat, r: nat, name: string)
    requires 0 < r && p + r <= |s| && GiveBack(s, p, r - 1, name) == None
    ensures GiveBack(s, p, r, name) == NameThenBoundary(s, p + r, name)
  {
  }

  /** Starting on whitespace, a class name needs the whole run before it. */
  lemma WholeRunDecides(s: string, p: nat, name: string)
    requires IsToken(name) && p < |s| && IsSpace(s[p])
    ensures GiveBack(s, p, SpaceLen(s[p..]), name) == NameThenBoundary(s, p + SpaceLen(s[p..]), name)
  {
    var t := s[p..];
    var run := SpaceLen(t);
    assert t[0] == s[p];
    assert 0 < run;
    forall k | p < k <= p + (run - 1)
      ensures IsSpace(s[k])
    {
      assert s[k] == t[..run][k - p];
    }
    GiveBackInRun(s, p, run - 1, name);
    GiveBackWhole(s, p, run, name);
  }

  /** For a class name only the whole whitespace run is tried: the engine's backtracking adds nothing. */
  lemma MatchAtOfToken(s: string, p: nat, name: string)
    requires IsToken(name) && p <= |s|
    ensures MatchAt(s, p, name) ==
      if p == 0 && NameThenBoundary(s, 0, name).Some? then NameThenBoundary(s, 0, name)
      else if p < |s| && IsSpace(s[p]) then NameThenBoundary(s, p + SpaceLen(s[p..]), name)
      else None
  {
    if !(p == 0 && NameThenBoundary(s, 0, name).Some?) && p < |s| && IsSpace(s[p]) {
      WholeRunDecides(s, p, name);
    }
  }

  /** No match starts at a position in `[lo, hi)`. */
  predicate NoMatchIn(s: string, name: string, lo: nat, hi: nat)
    requires hi <= |s| + 1
  {
    forall k :: lo <= k < hi ==> MatchAt(s, k, name).None?
  }

  /** The leftmost match at a start position `>= p`, as `(start, end)`. */
  function Search(s: string, name: string, p: nat): (m: Option<(nat, nat)>)
    requires p <= |s|
    ensures m.Some? ==> p <= m.value.0 <= |s| && MatchAt(s, m.value.0, name) == Some(m.value.1)
    ensures m.Some? ==> NoMatchIn(s, name, p, m.value.0)
    ensures m.None? ==> NoMatchIn(s, name, p, |s| + 1)
    decreases |s| - p
  {
    var here := MatchAt(s, p, name);
    if here.Some? then Some((p, here.value))
    else if p == |s| then None
    else
      var r := Search(s, name, p + 1);
      NoMatchStep(s, name, p, if r.Some? then r.value.0 else |s| + 1);
      r
  }

  lemma NoMatchStep(s: string, name: string, p: nat, hi: nat)
    requires p < hi <= |s| + 1 && MatchAt(s, p, name).None? && NoMatchIn(s, name, p + 1, hi)
    ensures NoMatchIn(s, name, p, hi)
  {
    forall k | p <= k < hi
      ensures MatchAt(s, k, name).None?
    {
      if k != p {
        assert p + 1 <= k;
      }
    }
  }

  /** `contains`: `regExp(name).test(className)`. */
  function HasClass(s: string, name: string): bool {
    Search(s, name, 0).Some?
  }

  /** `name` stands at position `q` as a whole whitespace-delimited token. */
  predicate TokenAt(s: string, q: nat, name: string) {
    q + |name| <= |s| && s[q..q + |name|] == name &&
    (q == 0 || IsSpace(s[q - 1])) &&
    (q + |name| == |s| || IsSpace(s[q + |name|]))
  }

  /** What `name(\s+|$)` consumes: the name, then whitespace up to the match end, or the end of the string. */
  lemma BoundaryParts(s: string, q: nat, name: string, m: nat)
    requires q <= |s| && NameThenBoundary(s, q, name) == Some(m)
    ensures q + |name| <= m && s[q..q + |name|] == name
    ensures AllSpace(s[q + |name|..m]) && (q + |name| == m ==> m == |s|)
  {
    var e := q + |name|;
    if e < |s| && IsSpace(s[e]) {
      var t := s[e..];
      assert s[e..m] == t[..SpaceLen(t)];
    }
  }

  /** The greedy `\s+` at a whitespace position `p` stops at `q`. */
  lemma LeadingRun(s: string, p: nat) returns (q: nat)
    requires p < |s| && IsSpace(s[p])
    ensures q == p + SpaceLen(s[p..]) && p < q <= |s| && AllSpace(s[p..q])
  {
    var t := s[p..];
    var run := SpaceLen(t);
    assert t[0] == s[p];
    q := p + run;
    assert s[p..q] == t[..run];
  }

  /** What a match is made of: whitespace (or the start), the name, whitespace (or the end). */
  lemma MatchParts(s: string, p: nat, name: string, m: nat) returns (q: nat)
    requires IsToken(name) && p <= |s| && MatchAt(s, p, name) == Some(m)
    ensures p <= q && q + |name| <= m
    ensures s[q..q + |name|] == name
    ensures AllSpace(s[p..q]) && (q == p ==> p == 0)
    ensures AllSpace(s[q + |name|..m]) && (q + |name| == m ==> m == |s|)
  {
    MatchAtOfToken(s, p, name);
    if p == 0 && NameThenBoundary(s, 0, name).Some? {
      q := 0;
    } else {
      q := LeadingRun(s, p);
    }
    BoundaryParts(s, q, name, m);
  }

  /** A whole-token occurrence is found by the pattern, starting on the whitespace just before it. */
  lemma TokenMatch(s: string, q: nat, name: string)
    requires IsToken(name) && TokenAt(s, q, name)
    ensures MatchAt(s, if q == 0 then 0 else q - 1, name).Some?
  {
    MatchAtOfToken(s, if q == 0 then 0 else q - 1, name);
    if q > 0 {
      var p := q - 1;
      assert s[p..][..1] == [s[p]];
      assert s[p..][1] == s[q..q + |name|][0];
      SpaceLenUnique(s[p..], 1);
      assert p + 1 == q;
    }
  }

  /** The pattern matches somewhere iff the name occurs as a whole token somewhere. */
  lemma HasClassIffTokenAt(s: string, name: string)
    requires IsToken(name)
    ensures HasClass(s, name) <==> exists q :: TokenAt(s, q, name)
  {
    if HasClass(s, name) {
      var a := Search(s, name, 0).value.0;
      var e := MatchAt(s, a, name).value;
      var q := MatchParts(s, a, name, e);
      if q != a {
        assert s[q - 1] == s[a..q][q - 1 - a];
      }
      if q + |name| != e {
        assert s[q + |name|] == s[q + |name|..e][0];
      }
      assert TokenAt(s, q, name);
    }
    if exists q :: TokenAt(s, q, name) {
      var q :| TokenAt(s, q, name);
      TokenMatch(s, q, name);
    }
  }

  /** What follows the start of a whole-token occurrence begins with that token. */
  lemma TokenAtTail(s: string, q: nat, tail: string, name: string)
    requires TokenAt(s, q, name) && tail == s[q..]
    ensures TokenAt(tail, 0, name)
  {
    var e := q + |name|;
    assert tail[..|name|] == s[q..e];
    if e < |s| {
      assert tail[|name|] == s[e];
    }
  }

  /** A string that starts with a whole token has it as its first token. */
  lemma TokenAtStart(t: string, name: string)
    requires IsToken(name) && TokenAt(t, 0, name)
    ensures Tokens(t) != [] && Tokens(t)[0] == name
  {
    var z := t[|name|..];
    assert t == name + z;
    assert z != [] ==> z[0] == t[|name|];
    TokensWord(name, z);
  }

  /** A whole-token occurrence is one of the tokens. */
  lemma TokenAtInTokens(s: string, q: nat, name: string)
    requires IsToken(name) && TokenAt(s, q, name)
    ensures name in Tokens(s)
  {
    var tail := s[q..];
    TokenAtTail(s, q, tail, name);
    TokenAtStart(tail, name);
    if q == 0 {
      assert s == tail;
    } else {
      var x, w := s[..q - 1], [s[q - 1]];
      assert s == x + w + tail;
      TokensJoin(x, w, tail);
      assert Tokens(s)[|Tokens(x)|] == name;
    }
  }

  /** A whole-token occurrence in a suffix of `s` is one in `s`, when the suffix starts after whitespace or contains it. */
  lemma TokenAtSuffix(s: string, d: nat, x: string, q: nat, name: string)
    requires d <= |s| && x == s[d..] && TokenAt(x, q, name)
    requires q == 0 ==> d == 0 || IsSpace(s[d - 1])
    ensures TokenAt(s, d + q, name)
  {
    var e := q + |name|;
    assert s[d + q..d + e] == x[q..e];
    if q > 0 {
      assert s[d + q - 1] == x[q - 1];
    }
    if e < |x| {
      assert s[d + e] == x[e];
    }
  }

  /** A whole-token occurrence in a prefix of `s` is one in `s`, when whitespace (or the end) follows the prefix. */
  lemma TokenAtPrefix(s: string, a: nat, x: string, q: nat, name: string)
    requires a <= |s| && x == s[..a] && TokenAt(x, q, name)
    requires a == |s| || IsSpace(s[a])
    ensures TokenAt(s, q, name)
  {
    var e := q + |name|;
    assert e <= a;
    assert forall i :: q <= i < e ==> x[i] == s[i];
    assert s[q..e] == x[q..e];
    if q > 0 {
      assert s[q - 1] == x[q - 1];
    }
    if e < a {
      assert s[e] == x[e];
    }
  }

  /** Every token stands somewhere as a whole-token occurrence. */
  lemma {:induction false} TokenPosition(s: string, name: string) returns (q: nat)
    requires name in Tokens(s)
    ensures TokenAt(s, q, name)
    decreases |s|, 1
  {
    if IsSpace(s[0]) {
      q := PositionAfterSpace(s, name);
    } else {
      var k := WordLen(s);
      if s[..k] == name {
        q := 0;
      } else {
        q := PositionAfterWord(s, k, name);
      }
    }
  }

  lemma {:induction false} PositionAfterSpace(s: string, name: string) returns (q: nat)
    requires name in Tokens(s) && IsSpace(s[0])
    ensures TokenAt(s, q, name)
    decreases |s|, 0
  {
    TokensSpaceStep(s);
    var x := s[1..];
    var q' := TokenPosition(x, name);
    TokenAtSuffix(s, 1, x, q', name);
    q := 1 + q';
  }

  lemma {:induction false} PositionAfterWord(s: string, k: nat, name: string) returns (q: nat)
    requires name in Tokens(s) && !IsSpace(s[0]) && k == WordLen(s) && s[..k] != name
    ensures TokenAt(s, q, name)
    decreases |s|, 0
  {
    TokensWordStep(s, k);
    var x := s[k..];
    assert name in Tokens(x);
    var q' := TokenPosition(x, name);
    assert x[0] == s[k];
    NotAtSpace(x, q', name);
    TokenAtSuffix(s, k, x, q', name);
    q := k + q';
  }

  /** A token does not stand at a whitespace position. */
  lemma NotAtSpace(x: string, q: nat, name: string)
    requires name in Tokens(x) && TokenAt(x, q, name) && x != [] && IsSpace(x[0])
    ensures q > 0
  {
    var i :| 0 <= i < |Tokens(x)| && Tokens(x)[i] == name;
    assert IsToken(name);
    assert x[q..q + |name|][0] == x[q];
  }

  /** `contains(name)` is true iff `name` is one of the whitespace-separated tokens of `className`. */
  lemma HasClassIffTokens(s: string, name: string)
    requires IsToken(name)
    ensures HasClass(s, name) <==> name in Tokens(s)
  {
    HasClassIffTokenAt(s, name);
    if name in Tokens(s) {
      var q := TokenPosition(s, name);
    }
    if exists q :: TokenAt(s, q, name) {
      var q :| TokenAt(s, q, name);
      TokenAtInTokens(s, q, name);
    }
  }

  // ---------------------------------------------------------------------------
  // the per-name steps of add and remove
  // ---------------------------------------------------------------------------

  /** One step of `add`: append `' ' + name` and trim, unless `name` is already contained. */
  function AddClass(s: string, name: string): string {
    if HasClass(s, name) then s else Trim(s + " " + name)
  }

  /** `className.replace(regExp(name), ' ')`: no `g` flag, so only the leftmost match becomes one space. */
  function ReplaceFirstMatch(s: string, name: string): string {
    match Search(s, name, 0)
    case None => s
    case Some((a, b)) => s[..a] + " " + s[b..]
  }

  /** One step of `remove`: replace the leftmost match and trim (the trim happens even without a match). */
  function RemoveClass(s: string, name: string): string {
    Trim(ReplaceFirstMatch(s, name))
  }

  /**
   * With the empty name the engine gives back part of a whitespace run: in
   * `"a  b"` the pattern matches the first blank alone, so `remove("")`
   * collapses the double blank.
   */
  lemma EmptyNameGivesBack()
    ensures Search("a  b", "", 0) == Some((1, 3))
    ensures HasClass("a  b", "") && RemoveClass("a  b", "") == "a b"
  {
    var s := "a  b";
    assert NameThenBoundary(s, 0, "") == None;
    assert MatchAt(s, 0, "") == None;
    assert s[1..] == "  b" && SpaceLen(s[1..]) == 2 by {
      SpaceLenUnique(s[1..], 2);
    }
    assert s[2..] == " b" && SpaceLen(s[2..]) == 1 by {
      SpaceLenUnique(s[2..], 1);
    }
    assert NameThenBoundary(s, 3, "") == None;
    assert NameThenBoundary(s, 2, "") == Some(3);
    assert GiveBack(s, 1, 2, "") == Some(3);
    assert MatchAt(s, 1, "") == Some(3);
    assert Search(s, "", 1) == Some((1, 3));
    var r := s[..1] + " " + s[3..];
    assert r == "a b";
    assert ReplaceFirstMatch(s, "") == r;
    assert Trimmed(r) && TrimStart(r) == r && TrimEnd(r) == r;
  }

  /** Drops the first occurrence of `n`. */
  function RemoveFirst(t: seq<string>, n: string): seq<string> {
    if t == [] then []
    else if t[0] == n then t[1..]
    else [t[0]] + RemoveFirst(t[1..], n)
  }

  lemma {:induction false} RemoveFirstSplit(x: seq<string>, n: string, y: seq<string>)
    requires n !in x
    ensures RemoveFirst(x + [n] + y, n) == x + y
    decreases |x|
  {
    if x == [] {
      assert x + [n] + y == [n] + y;
    } else {
      assert (x + [n] + y)[1..] == x[1..] + [n] + y;
      RemoveFirstSplit(x[1..], n, y);
      assert x + y == [x[0]] + (x[1..] + y);
    }
  }

  lemma {:induction false} RemoveFirstAbsent(t: seq<string>, n: string)
    requires n !in t
    ensures RemoveFirst(t, n) == t
    decreases |t|
  {
    if t != [] {
      RemoveFirstAbsent(t[1..], n);
    }
  }

  /** The first index holding `n`. */
  lemma {:induction false} FirstIndex(t: seq<string>, n: string) returns (i: nat)
    requires n in t
    ensures i < |t| && t[i] == n && n !in t[..i]
    decreases |t|
  {
    if t[0] == n {
      i := 0;
    } else {
      var rest := t[1..];
      var j := FirstIndex(rest, n);
      i := j + 1;
      assert t[..i] == [t[0]] + rest[..j];
    }
  }

  /** RemoveFirst removes one copy of `n` and nothing else, keeping the order of the rest. */
  lemma RemoveFirstAt(t: seq<string>, n: string) returns (i: nat)
    requires n in t
    ensures i < |t| && t[i] == n && n !in t[..i]
    ensures RemoveFirst(t, n) == t[..i] + t[i + 1..]
    ensures multiset(RemoveFirst(t, n)) == multiset(t) - multiset{n}
  {
    i := FirstIndex(t, n);
    var x, y := t[..i], t[i + 1..];
    assert t == x + [n] + y;
    RemoveFirstSplit(x, n, y);
    assert multiset(t) == multiset(x) + multiset{n} + multiset(y);
  }

  /** No occurrence of the name among the tokens before the leftmost match. */
  lemma NothingBeforeMatch(s: string, name: string, a: nat)
    requires IsToken(name) && a <= |s|
    requires a == 0 || (a < |s| && IsSpace(s[a]))
    ensures name in Tokens(s[..a]) ==> exists k :: 0 <= k < a && MatchAt(s, k, name).Some?
  {
    if name in Tokens(s[..a]) {
      var x := s[..a];
      var q := TokenPosition(x, name);
      TokenAtPrefix(s, a, x, q, name);
      TokenMatch(s, q, name);
    }
  }

  /** A string is the concatenation of its consecutive slices. */
  lemma Slices(s: string, a: nat, q: nat, e: nat, b: nat, x: string, w1: string, n: string, w2: string, y: string)
    requires a <= q <= e <= b <= |s|
    requires x == s[..a] && w1 == s[a..q] && n == s[q..e] && w2 == s[e..b] && y == s[b..]
    ensures s == x + w1 + (n + (w2 + y))
    ensures |x| == a && |w1| == q - a && |w2| == b - e && |y| == |s| - b
  {
  }

  /** A name with whitespace (or the start) before it and whitespace (or the end) after it is a token. */
  lemma TokensAroundName(x: string, w1: string, name: string, w2: string, y: string)
    requires IsToken(name) && AllSpace(w1) && AllSpace(w2)
    requires w1 == [] ==> x == []
    requires w2 == [] ==> y == []
    ensures Tokens(x + w1 + (name + (w2 + y))) == Tokens(x) + [name] + Tokens(y)
  {
    var rest := w2 + y;
    assert rest == [] || IsSpace(rest[0]) by {
      if w2 != [] {
        assert rest[0] == w2[0];
      }
    }
    TokensWord(name, rest);
    TokensSpacePrefix(w2, y);
    var tail := name + rest;
    if w1 == [] {
      assert x + w1 + tail == tail;
    } else {
      TokensJoin(x, w1, tail);
    }
  }

  lemma PartsTokens(s: string, name: string, a: nat, q: nat, b: nat)
    requires IsToken(name) && a <= q && q + |name| <= b <= |s|
    requires s[q..q + |name|] == name
    requires AllSpace(s[a..q]) && (q == a ==> a == 0)
    requires AllSpace(s[q + |name|..b]) && (q + |name| == b ==> b == |s|)
    ensures Tokens(s) == Tokens(s[..a]) + [name] + Tokens(s[b..])
  {
    var e := q + |name|;
    var x, w1, w2, y := s[..a], s[a..q], s[e..b], s[b..];
    Slices(s, a, q, e, b, x, w1, name, w2, y);
    TokensAroundName(x, w1, name, w2, y);
  }

  /** The tokens around the leftmost match: those before it, the name, those after it. */
  lemma MatchSplitsTokens(s: string, name: string, a: nat, b: nat)
    requires IsToken(name) && Search(s, name, 0) == Some((a, b))
    ensures a <= b <= |s|
    ensures Tokens(s) == Tokens(s[..a]) + [name] + Tokens(s[b..])
    ensures name !in Tokens(s[..a])
  {
    var q := MatchParts(s, a, name, b);
    PartsTokens(s, name, a, q, b);
    if q != a {
      assert s[a] == s[a..q][0];
    }
    NothingBeforeMatch(s, name, a);
  }

  /** `remove(name)` deletes exactly the first token equal to `name`. */
  lemma RemoveClassTokens(s: string, name: string)
    requires IsToken(name)
    ensures Tokens(RemoveClass(s, name)) == RemoveFirst(Tokens(s), name)
  {
    TrimTokens(ReplaceFirstMatch(s, name));
    if Search(s, name, 0).None? {
      HasClassIffTokens(s, name);
      RemoveFirstAbsent(Tokens(s), name);
    } else {
      var (a, b) := Search(s, name, 0).value;
      MatchSplitsTokens(s, name, a, b);
      var x, y := s[..a], s[b..];
      assert ReplaceFirstMatch(s, name) == x + " " + y;
      RemoveFirstSplit(Tokens(x), name, Tokens(y));
      TokensJoin(x, " ", y);
    }
  }

  /** `add(name)` appends `name` as a new last token, or changes nothing when it is already there. */
  lemma AddClassTokens(s: string, name: string)
    requires IsToken(name)
    ensures name in Tokens(s) ==> AddClass(s, name) == s
    ensures name !in Tokens(s) ==> Tokens(AddClass(s, name)) == Tokens(s) + [name]
    ensures HasClass(AddClass(s, name), name)
  {
    HasClassIffTokens(s, name);
    if name !in Tokens(s) {
      TrimTokens(s + " " + name);
      assert s + " " + name == s + " " + name + [];
      TokensJoin(s, " ", name);
      assert s + " " + name + [] == s + " " + name;
      TokensOfToken(name);
    }
    HasClassIffTokens(AddClass(s, name), name);
  }

  /** Adding an already-present name, or adding twice, leaves `className` as it was. */
  lemma AddClassIdempotent(s: string, name: string)
    requires IsToken(name)
    ensures AddClass(AddClass(s, name), name) == AddClass(s, name)
  {
    AddClassTokens(s, name);
  }

  /** When `name` occurs at most once, no copy of it is left after `remove(name)`. */
  lemma RemoveClassRemoves(s: string, name: string)
    requires IsToken(name) && multiset(Tokens(s))[name] <= 1
    ensures !HasClass(RemoveClass(s, name), name)
  {
    RemoveClassTokens(s, name);
    RemoveFirstOnly(Tokens(s), name);
    HasClassIffTokens(RemoveClass(s, name), name);
  }

  /** When `n` occurs at most once, RemoveFirst leaves no copy of it. */
  lemma RemoveFirstOnly(t: seq<string>, n: string)
    requires multiset(t)[n] <= 1
    ensures n !in RemoveFirst(t, n)
  {
    if n in t {
      var i := RemoveFirstAt(t, n);
      assert multiset(RemoveFirst(t, n))[n] == 0;
    } else {
      RemoveFirstAbsent(t, n);
    }
  }

  // ---------------------------------------------------------------------------
  // the variadic loops, item, toggle, replace
  // ---------------------------------------------------------------------------

  /** `add(...names)`: the names are processed left to right. */
  function AddAll(s: string, names: seq<string>): string {
    if names == [] then s
    else AddClass(AddAll(s, names[..|names| - 1]), names[|names| - 1])
  }

  /** `remove(...names)`: the names are processed left to right. */
  function RemoveAll(s: string, names: seq<string>): string {
    if names == [] then s
    else RemoveClass(RemoveAll(s, names[..|names| - 1]), names[|names| - 1])
  }

  /** The token list that `add(...names)` produces: each name not yet present is appended once. */
  function AppendNew(t: seq<string>, names: seq<string>): seq<string> {
    if names == [] then t
    else
      var u := AppendNew(t, names[..|names| - 1]);
      var n := names[|names| - 1];
      if n in u then u else u + [n]
  }

  /** The token list that `remove(...names)` produces. */
  function RemoveEach(t: seq<string>, names: seq<string>): seq<string> {
    if names == [] then t
    else RemoveFirst(RemoveEach(t, names[..|names| - 1]), names[|names| - 1])
  }

  predicate NoDuplicates(t: seq<string>) {
    forall i, j :: 0 <= i < j < |t| ==> t[i] != t[j]
  }

  lemma {:induction false} AddAllTokens(s: string, names: seq<string>)
    requires forall i :: 0 <= i < |names| ==> IsToken(names[i])
    ensures Tokens(AddAll(s, names)) == AppendNew(Tokens(s), names)
    decreases |names|
  {
    if names != [] {
      var init := names[..|names| - 1];
      AddAllTokens(s, init);
      AddClassTokens(AddAll(s, init), names[|names| - 1]);
    }
  }

  lemma {:induction false} RemoveAllTokens(s: string, names: seq<string>)
    requires forall i :: 0 <= i < |names| ==> IsToken(names[i])
    ensures Tokens(RemoveAll(s, names)) == RemoveEach(Tokens(s), names)
    decreases |names|
  {
    if names != [] {
      var init := names[..|names| - 1];
      RemoveAllTokens(s, init);
      RemoveClassTokens(RemoveAll(s, init), names[|names| - 1]);
    }
  }

  /** What `add(...names)` does to the tokens: the old ones stay first, every name ends up present, none twice. */
  lemma {:induction false} AppendNewProperties(t: seq<string>, names: seq<string>)
    ensures |t| <= |AppendNew(t, names)| && AppendNew(t, names)[..|t|] == t
    ensures forall x :: x in AppendNew(t, names) <==> x in t || x in names
    ensures NoDuplicates(t) ==> NoDuplicates(AppendNew(t, names))
    decreases |names|
  {
    if names != [] {
      var init := names[..|names| - 1];
      AppendNewProperties(t, init);
      assert names == init + [names[|names| - 1]];
      var u := AppendNew(t, init);
      assert (u + [names[|names| - 1]])[..|t|] == u[..|t|];
    }
  }

  /** `trim` runs on every path of `add` that changes `className`, so a trimmed name stays trimmed. */
  lemma {:induction false} AddAllTrimmed(s: string, names: seq<string>)
    requires Trimmed(s)
    ensures Trimmed(AddAll(s, names))
    decreases |names|
  {
    if names != [] {
      AddAllTrimmed(s, names[..|names| - 1]);
    }
  }

  /** Whatever `className` it starts from, an `add` that changes it leaves it trimmed. */
  lemma {:induction false} AddAllChangedTrimmed(s: string, names: seq<string>)
    ensures AddAll(s, names) != s ==> Trimmed(AddAll(s, names))
    decreases |names|
  {
    if names != [] {
      var prev := AddAll(s, names[..|names| - 1]);
      var name := names[|names| - 1];
      AddAllChangedTrimmed(s, names[..|names| - 1]);
      if !HasClass(prev, name) {
        assert Trimmed(Trim(prev + " " + name));
      }
    }
  }

  /** `remove` with at least one name always leaves a trimmed `className`. */
  lemma RemoveAllTrimmed(s: string, names: seq<string>)
    requires names != []
    ensures Trimmed(RemoveAll(s, names))
  {
  }

  /** `add("a", "a")` adds `a` once. */
  lemma AddTwiceOnce(s: string, name: string)
    requires IsToken(name)
    ensures AddAll(s, [name, name]) == AddAll(s, [name])
  {
    var twice := [name, name];
    AddAllStep(s, twice, 1);
    assert twice[..2] == twice && twice[..1] == [name];
    AddAllOne(s, name);
    AddClassIdempotent(s, name);
  }

  /** `add(...names)` on one more name is one more `add` step. */
  lemma AddAllStep(s: string, names: seq<string>, i: nat)
    requires i < |names|
    ensures AddAll(s, names[..i + 1]) == AddClass(AddAll(s, names[..i]), names[i])
  {
    assert names[..i + 1][..i] == names[..i];
  }

  /** `remove(...names)` on one more name is one more `remove` step. */
  lemma RemoveAllStep(s: string, names: seq<string>, i: nat)
    requires i < |names|
    ensures RemoveAll(s, names[..i + 1]) == RemoveClass(RemoveAll(s, names[..i]), names[i])
  {
    assert names[..i + 1][..i] == names[..i];
  }

  /** What `add(...names)` means for the token list and for trimming. */
  lemma AddAllMeaning(s: string, names: seq<string>)
    ensures (forall i :: 0 <= i < |names| ==> IsToken(names[i])) ==>
      Tokens(AddAll(s, names)) == AppendNew(Tokens(s), names)
    ensures Trimmed(s) ==> Trimmed(AddAll(s, names))
  {
    if forall i :: 0 <= i < |names| ==> IsToken(names[i]) {
      AddAllTokens(s, names);
    }
    if Trimmed(s) {
      AddAllTrimmed(s, names);
    }
  }

  /** What `remove(...names)` means for the token list and for trimming. */
  lemma RemoveAllMeaning(s: string, names: seq<string>)
    ensures (forall i :: 0 <= i < |names| ==> IsToken(names[i])) ==>
      Tokens(RemoveAll(s, names)) == RemoveEach(Tokens(s), names)
    ensures names != [] ==> Trimmed(RemoveAll(s, names))
  {
    if forall i :: 0 <= i < |names| ==> IsToken(names[i]) {
      RemoveAllTokens(s, names);
    }
    if names != [] {
      RemoveAllTrimmed(s, names);
    }
  }

  /** `item(index)`: `className.split(/\s+/)[index] || null`; an empty piece is falsy and also gives null. */
  function ItemAt(s: string, index: int): (r: Option<string>)
    ensures r.Some? ==> IsToken(r.value)
  {
    var pieces := SplitWs(s);
    if 0 <= index < |pieces| && pieces[index] != "" then Some(pieces[index]) else None
  }

  /** On a trimmed `className` (what add and remove leave behind) `item(i)` is the i-th token or null. */
  lemma ItemOfTrimmed(s: string, index: int)
    ensures Trimmed(s) ==>
      ItemAt(s, index) == if 0 <= index < |Tokens(s)| then Some(Tokens(s)[index]) else None
  {
    if Trimmed(s) && s != [] {
      SplitTrimmed(s);
    }
  }

  lemma AddAllOne(s: string, name: string)
    ensures AddAll(s, [name]) == AddClass(s, name)
  {
    assert [name][..0] == [];
  }

  lemma RemoveAllOne(s: string, name: string)
    ensures RemoveAll(s, [name]) == RemoveClass(s, name)
  {
    assert [name][..0] == [];
  }

  /** `toggle(name)`: remove and answer false when contained, otherwise add and answer true. */
  function ToggleClass(s: string, name: string): (string, bool) {
    if HasClass(s, name) then (RemoveAll(s, [name]), false) else (AddAll(s, [name]), true)
  }

  /** After `toggle(name)` the name is contained iff the call answered true, when it occurred at most once. */
  lemma ToggleMembership(s: string, name: string)
    requires IsToken(name) && multiset(Tokens(s))[name] <= 1
    ensures HasClass(ToggleClass(s, name).0, name) == ToggleClass(s, name).1
  {
    AddAllOne(s, name);
    RemoveAllOne(s, name);
    if HasClass(s, name) {
      RemoveClassRemoves(s, name);
    } else {
      AddClassTokens(s, name);
    }
  }

  /** Only the first copy goes: toggling `a` in `"a a"` answers false and `a` is still there. */
  lemma ToggleDuplicate()
    ensures ToggleClass("a a", "a") == ("a", false)
    ensures HasClass("a", "a")
  {
    var s := "a a";
    assert NameThenBoundary(s, 0, "a") == Some(2) by {
      assert s[0..1] == "a";
      assert s[2..] == "a";
      SpaceLenUnique(s[1..], 1);
    }
    assert Search(s, "a", 0) == Some((0, 2));
    assert ReplaceFirstMatch(s, "a") == " a";
    assert TrimStart(" a") == "a";
    assert ["a"][..0] == [];
    assert NameThenBoundary("a", 0, "a") == Some(1);
  }

  /** `replace(oldName, newName)`: `remove(oldName)` then `add(newName)`, whether or not `oldName` was there. */
  function ReplaceClass(s: string, oldName: string, newName: string): string {
    AddAll(RemoveAll(s, [oldName]), [newName])
  }

  /** After `replace` the new name is contained, and the tokens are those of a first-copy removal followed by an add. */
  lemma ReplaceClassTokens(s: string, oldName: string, newName: string)
    requires IsToken(oldName) && IsToken(newName)
    ensures HasClass(ReplaceClass(s, oldName, newName), newName)
    ensures var t := RemoveFirst(Tokens(s), oldName);
      Tokens(ReplaceClass(s, oldName, newName)) == if newName in t then t else t + [newName]
  {
    RemoveAllOne(s, oldName);
    var r := RemoveClass(s, oldName);
    AddAllOne(r, newName);
    RemoveClassTokens(s, oldName);
    AddClassTokens(r, newName);
  }

  // ---------------------------------------------------------------------------
  // the objects
  // ---------------------------------------------------------------------------

  /** The part of a DOM element the polyfill touches. */
  class Element {
    var className: string

    constructor (className: string)
      ensures this.className == className
    {
      this.className := className;
    }
  }

  /** `new ClassList(element)`: a view on the element; several views share its `className`. */
  class ClassList {
    const element: Element

    constructor (element: Element)
      ensures this.element == element
    {
      this.element := element;
    }

    /** `contains(name)`. */
    function Contains(name: string): (r: bool)
      reads element
      ensures IsToken(name) ==> (r <==> name in Tokens(element.className))
    {
      if IsToken(name) then
        HasClassIffTokens(element.className, name);
        HasClass(element.className, name)
      else
        HasClass(element.className, name)
    }

    /** `item(index)`. */
    function Item(index: int): (r: Option<string>)
      reads element
      ensures Trimmed(element.className) ==>
        r == if 0 <= index < |Tokens(element.className)| then Some(Tokens(element.className)[index]) else None
      ensures r.Some? ==> IsToken(r.value)
    {
      ItemOfTrimmed(element.className, index);
      ItemAt(element.className, index)
    }

    /** `add(...names)`. */
    method Add(names: seq<string>)
      modifies element
      ensures element.className == AddAll(old(element.className), names)
      ensures (forall i :: 0 <= i < |names| ==> IsToken(names[i])) ==>
        Tokens(element.className) == AppendNew(Tokens(old(element.className)), names)
      ensures Trimmed(old(element.className)) ==> Trimmed(element.className)
      ensures element.className != old(element.className) ==> Trimmed(element.className)
    {
      ghost var start := element.className;
      var i := 0;
      while i < |names|
        invariant 0 <= i <= |names|
        invariant element.className == AddAll(old(element.className), names[..i])
      {
        AddAllStep(old(element.className), names, i);
        var name := names[i];
        if !HasClass(element.className, name) {
          element.className := Trim(element.className + " " + name);
        }
        i := i + 1;
      }
      assert names[..i] == names;
      AddAllMeaning(start, names);
      AddAllChangedTrimmed(start, names);
    }

    /** `remove(...names)`. */
    method Remove(names: seq<string>)
      modifies element
      ensures element.className == RemoveAll(old(element.className), names)
      ensures (forall i :: 0 <= i < |names| ==> IsToken(names[i])) ==>
        Tokens(element.className) == RemoveEach(Tokens(old(element.className)), names)
      ensures names != [] ==> Trimmed(element.className)
    {
      ghost var start := element.className;
      var i := 0;
      while i < |names|
        invariant 0 <= i <= |names|
        invariant element.className == RemoveAll(start, names[..i])
      {
        RemoveAllStep(start, names, i);
        element.className := RemoveClass(element.className, names[i]);
        i := i + 1;
      }
      assert names[..i] == names;
      assert element.className == RemoveAll(start, names);
      RemoveAllMeaning(start, names);
    }

    /** `toggle(name)`. */
    method Toggle(name: string) returns (r: bool)
      modifies element
      ensures (element.className, r) == ToggleClass(old(element.className), name)
      ensures IsToken(name) && multiset(Tokens(old(element.className)))[name] <= 1 ==>
        HasClass(element.className, name) == r
    {
      if IsToken(name) && multiset(Tokens(element.className))[name] <= 1 {
        ToggleMembership(element.className, name);
      }
      if HasClass(element.className, name) {
        Remove([name]);
        r := false;
      } else {
        Add([name]);
        r := true;
      }
    }

    /** `replace(oldName, newName)`. */
    method Replace(oldName: string, newName: string)
      modifies element
      ensures element.className == ReplaceClass(old(element.className), oldName, newName)
      ensures IsToken(oldName) && IsToken(newName) ==> HasClass(element.className, newName)
    {
      if IsToken(oldName) && IsToken(newName) {
        ReplaceClassTokens(element.className, oldName, newName);
      }
      Remove([oldName]);
      Add([newName]);
    }
  }
}

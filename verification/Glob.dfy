/** The glob matcher used for model patterns (server/internal/router/engine.go).
    The reference meaning of a pattern is the recursive predicate Matches; the source
    instead splits the pattern on '*' and places the pieces greedily. */
module Glob {
  import opened Prelude

  /** Reference meaning: '*' stands for any run of characters, everything else for itself. */
  ghost predicate Matches(p: string, s: string)
    decreases p
  {
    if p == "" then s == ""
    else if p[0] == '*' then exists k | 0 <= k <= |s| :: Matches(p[1..], s[k..])
    else s != "" && s[0] == p[0] && Matches(p[1..], s[1..])
  }

  /** The pieces between the stars, in order: always one more than there are stars. */
  function Split(p: string): (parts: seq<string>)
    ensures |parts| >= 1
    ensures '*' in p <==> |parts| >= 2
  {
    if p == "" then [""]
    else
      var rest := Split(p[1..]);
      if p[0] == '*' then [""] + rest else [[p[0]] + rest[0]] + rest[1..]
  }

  ghost predicate HasSuffix(s: string, t: string) {
    |t| <= |s| && s[|s| - |t|..] == t
  }

  ghost predicate At(s: string, m: string, i: nat) {
    i + |m| <= |s| && s[i..i + |m|] == m
  }

  /** Leftmost occurrence of m in s, as strings.Index finds it. */
  method Index(s: string, m: string) returns (r: Option<nat>)
    ensures r.Some? ==> At(s, m, r.value) && forall j: nat | j < r.value :: !At(s, m, j)
    ensures r.None? ==> forall j: nat :: !At(s, m, j)
  {
    var i := 0;
    while i + |m| <= |s|
      invariant forall j: nat | j < i :: !At(s, m, j)
    {
      if s[i..i + |m|] == m {
        return Some(i);
      }
      i := i + 1;
    }
    return None;
  }

  // ------------------------------------------------------------------ pieces

  /** Matching stated on the pieces: literals in order with arbitrary gaps between them. */
  ghost predicate PiecesMatch(ps: seq<string>, s: string)
    requires |ps| >= 1
    decreases |ps|, 0
  {
    if |ps| == 1 then s == ps[0]
    else ps[0] <= s && FloatMatch(ps[1..], s[|ps[0]|..])
  }

  /** As PiecesMatch, but the first piece may start anywhere. */
  ghost predicate FloatMatch(ps: seq<string>, s: string)
    requires |ps| >= 1
    decreases |ps|, 1
  {
    exists k | 0 <= k <= |s| :: PiecesMatch(ps, s[k..])
  }

  /** Some placement of the pieces ms, in order and without overlap, exists in s. */
  ghost predicate Placeable(ms: seq<string>, s: string) {
    ms == [] || exists i: nat :: At(s, ms[0], i) && Placeable(ms[1..], s[i + |ms[0]|..])
  }

  lemma {:induction false} SplitMeaning(p: string, s: string)
    ensures Matches(p, s) <==> PiecesMatch(Split(p), s)
    decreases p
  {
    if p != "" {
      var rest := Split(p[1..]);
      var parts := Split(p);
      if p[0] == '*' {
        assert parts[1..] == rest && s[0..] == s;
        forall k | 0 <= k <= |s| ensures Matches(p[1..], s[k..]) <==> PiecesMatch(rest, s[k..]) {
          SplitMeaning(p[1..], s[k..]);
        }
      } else if s != "" && s[0] == p[0] {
        SplitMeaning(p[1..], s[1..]);
        assert parts[0] == [p[0]] + rest[0] && parts[1..] == rest[1..];
        assert s == [p[0]] + s[1..];
        assert parts[0] <= s <==> rest[0] <= s[1..];
        if |rest| > 1 && parts[0] <= s {
          assert s[|parts[0]|..] == s[1..][|rest[0]|..];
        }
      }
    }
  }

  /** A floating match of several pieces: the first is placed somewhere, the others float after it. */
  lemma FloatUnfold(ps: seq<string>, s: string)
    requires |ps| >= 2
    ensures FloatMatch(ps, s) <==> exists i: nat :: At(s, ps[0], i) && FloatMatch(ps[1..], s[i + |ps[0]|..])
  {
    var m := ps[0];
    if FloatMatch(ps, s) {
      var k :| 0 <= k <= |s| && PiecesMatch(ps, s[k..]);
      assert s[k..][|m|..] == s[k + |m|..] && At(s, m, k);
    }
    if i: nat :| At(s, m, i) && FloatMatch(ps[1..], s[i + |m|..]) {
      assert s[i..][|m|..] == s[i + |m|..];
      assert s[i..][..|m|] == s[i..i + |m|];
      assert PiecesMatch(ps, s[i..]);
    }
  }

  /** Cutting a fixed suffix off commutes with placing the first piece. */
  lemma CutSuffix(s: string, m: string, i: nat, last: string)
    requires i + |m| + |last| <= |s|
    ensures var head, tail := s[..|s| - |last|], s[i + |m|..];
            && (At(s, m, i) <==> At(head, m, i))
            && (HasSuffix(s, last) <==> HasSuffix(tail, last))
            && tail[..|tail| - |last|] == head[i + |m|..]
  {
    var head, tail := s[..|s| - |last|], s[i + |m|..];
    assert head[i..i + |m|] == s[i..i + |m|];
    assert tail[|tail| - |last|..] == s[|s| - |last|..];
  }

  /** The last piece at the end, the others placed before it. */
  ghost predicate FixedEnd(ps: seq<string>, s: string)
    requires |ps| >= 1
  {
    var last := ps[|ps| - 1];
    HasSuffix(s, last) && Placeable(ps[..|ps| - 1], s[..|s| - |last|])
  }

  lemma FixedEndUnfold(ps: seq<string>, s: string)
    requires |ps| >= 2
    ensures FixedEnd(ps, s) <==> exists i: nat :: At(s, ps[0], i) && FixedEnd(ps[1..], s[i + |ps[0]|..])
  {
    var last, m, rest, mids := ps[|ps| - 1], ps[0], ps[1..], ps[..|ps| - 1];
    assert mids[1..] == rest[..|rest| - 1] && mids[0] == m;
    if FixedEnd(ps, s) {
      var head := s[..|s| - |last|];
      var i: nat :| At(head, m, i) && Placeable(mids[1..], head[i + |m|..]);
      CutSuffix(s, m, i, last);
      assert At(s, m, i) && FixedEnd(rest, s[i + |m|..]);
    }
    if i: nat :| At(s, m, i) && FixedEnd(rest, s[i + |m|..]) {
      CutSuffix(s, m, i, last);
      assert At(s[..|s| - |last|], mids[0], i);
    }
  }

  /** A floating match fixes the last piece at the end and only has to place the others before it:
      prefix and suffix never compete for the same characters. */
  lemma {:induction false} FloatMeaning(ps: seq<string>, s: string)
    requires |ps| >= 1
    ensures FloatMatch(ps, s) <==> FixedEnd(ps, s)
    decreases |ps|
  {
    if |ps| == 1 {
      var last := ps[0];
      if FloatMatch(ps, s) {
        var k :| 0 <= k <= |s| && PiecesMatch(ps, s[k..]);
      }
      if HasSuffix(s, last) {
        assert PiecesMatch(ps, s[|s| - |last|..]);
      }
    } else {
      FloatUnfold(ps, s);
      FixedEndUnfold(ps, s);
      forall i: nat | At(s, ps[0], i) {
        FloatMeaning(ps[1..], s[i + |ps[0]|..]);
      }
    }
  }

  // ------------------------------------------------------------------ greed

  /** More room in front never hurts. */
  lemma {:induction false} PlaceableInLonger(ms: seq<string>, s: string, d: nat)
    requires d <= |s| && Placeable(ms, s[d..])
    ensures Placeable(ms, s)
  {
    if ms != [] {
      var i: nat :| At(s[d..], ms[0], i) && Placeable(ms[1..], s[d..][i + |ms[0]|..]);
      assert s[d..][i..i + |ms[0]|] == s[d + i..d + i + |ms[0]|];
      assert s[d..][i + |ms[0]|..] == s[d + i + |ms[0]|..];
      assert At(s, ms[0], d + i);
    }
  }

  /** Placing a piece at its leftmost occurrence never loses a match. */
  lemma LeftmostIsEnough(ms: seq<string>, s: string, i: nat)
    requires ms != [] && At(s, ms[0], i) && forall j: nat | j < i :: !At(s, ms[0], j)
    ensures Placeable(ms, s) <==> Placeable(ms[1..], s[i + |ms[0]|..])
  {
    if Placeable(ms, s) {
      var j: nat :| At(s, ms[0], j) && Placeable(ms[1..], s[j + |ms[0]|..]);
      var rest := s[i + |ms[0]|..];
      assert rest[j - i..] == s[j + |ms[0]|..];
      PlaceableInLonger(ms[1..], rest, j - i);
    }
  }

  /** What remains to be decided once the first and last pieces are off: the source's two slices. */
  lemma EndsOff(pattern: string, text: string)
    requires '*' in pattern
    ensures var parts := Split(pattern);
            var first, last, mids := parts[0], parts[|parts| - 1], parts[1..|parts| - 1];
            Matches(pattern, text) <==>
            && first <= text
            && HasSuffix(text[|first|..], last)
            && Placeable(mids, text[|first|..|text| - |last|])
  {
    var parts := Split(pattern);
    var first, last := parts[0], parts[|parts| - 1];
    SplitMeaning(pattern, text);
    if first <= text {
      var s := text[|first|..];
      FloatMeaning(parts[1..], s);
      assert parts[1..][..|parts| - 2] == parts[1..|parts| - 1];
      if |last| <= |s| {
        assert s[..|s| - |last|] == text[|first|..|text| - |last|];
      }
    }
  }

  /** Greedy leftmost placement decides whether any placement exists. */
  method PlaceGreedily(mids: seq<string>, text: string) returns (b: bool)
    ensures b <==> Placeable(mids, text)
  {
    var s := text;
    for i := 0 to |mids|
      invariant Placeable(mids, text) <==> Placeable(mids[i..], s)
    {
      var mid := mids[i];
      assert mids[i..][0] == mid && mids[i..][1..] == mids[i + 1..];
      if mid == "" {
        assert At(s, mid, 0) && s[0 + |mid|..] == s;
        LeftmostIsEnough(mids[i..], s, 0);
        continue;
      }
      var idx := Index(s, mid);
      if idx.None? {
        return false;
      }
      LeftmostIsEnough(mids[i..], s, idx.value);
      s := s[idx.value + |mid|..];
    }
    return true;
  }

  /** The source's matcher. Its only caller has checked that the pattern holds a star: without
      one, the slice of middle pieces would be out of range. */
  method WildcardMatch(pattern: string, text: string) returns (b: bool)
    requires '*' in pattern
    ensures b <==> Matches(pattern, text)
  {
    EndsOff(pattern, text);
    var parts := Split(pattern);
    var s := text;
    var first := parts[0];
    if first != "" {
      if !(first <= s) {
        return false;
      }
      s := s[|first|..];
    }
    var last := parts[|parts| - 1];
    if last != "" {
      if |last| > |s| || s[|s| - |last|..] != last {
        return false;
      }
      s := s[..|s| - |last|];
    }
    assert s == text[|first|..|text| - |last|];
    b := PlaceGreedily(parts[1..|parts| - 1], s);
  }

  lemma {:induction false} MatchesItself(p: string)
    ensures Matches(p, p)
  {
    if p != "" {
      MatchesItself(p[1..]);
      if p[0] == '*' {
        assert Matches(p[1..], p[1..]);
      }
    }
  }

  lemma {:induction false} StarlessMatch(p: string, s: string)
    requires '*' !in p
    ensures Matches(p, s) <==> p == s
  {
    if p != "" {
      assert p[0] in p && forall c | c in p[1..] :: c in p;
      if s != "" {
        StarlessMatch(p[1..], s[1..]);
        assert p == [p[0]] + p[1..] && s == [s[0]] + s[1..];
      }
    }
  }

  /** Whatever the pattern, with or without stars, the shortcut for equal strings and the test
      for a star both agree with the reference meaning. */
  method ModelMatches(pattern: string, requested: string) returns (b: bool)
    ensures b <==> Matches(pattern, requested)
  {
    if pattern == requested {
      MatchesItself(pattern);
      return true;
    }
    if '*' !in pattern {
      StarlessMatch(pattern, requested);
      return false;
    }
    b := WildcardMatch(pattern, requested);
  }

  method AnyModelMatches(patterns: seq<string>, requested: string) returns (b: bool)
    ensures b <==> exists p | p in patterns :: Matches(p, requested)
  {
    for i := 0 to |patterns|
      invariant forall j | 0 <= j < i :: !Matches(patterns[j], requested)
    {
      var hit := ModelMatches(patterns[i], requested);
      if hit {
        return true;
      }
    }
    return false;
  }
}

/** String trimming as strings.TrimSpace and String.prototype.trim do it, for ASCII white space. */
module Text {

  predicate IsWhite(c: char) {
    c == ' ' || c == '\t' || c == '\n' || c == '\r' || c == '\U{000b}' || c == '\U{000c}'
  }

  predicate Blank(s: string) { forall c | c in s :: IsWhite(c) }

  function TrimLeft(s: string): (r: string)
    ensures |r| <= |s|
    ensures r == "" || !IsWhite(r[0])
  {
    if s != "" && IsWhite(s[0]) then TrimLeft(s[1..]) else s
  }

  function TrimRight(s: string): (r: string)
    ensures r <= s
    ensures r == "" || !IsWhite(r[|r| - 1])
  {
    if s != "" && IsWhite(s[|s| - 1]) then TrimRight(s[..|s| - 1]) else s
  }

  function Trim(s: string): string { TrimRight(TrimLeft(s)) }

  lemma {:induction false} TrimLeftBlank(s: string)
    ensures TrimLeft(s) == "" <==> Blank(s)
  {
    if s != "" {
      assert s[0] in s;
      assert s == [s[0]] + s[1..];
      TrimLeftBlank(s[1..]);
    }
  }

  /** Trimming leaves nothing exactly when there is only white space. */
  lemma TrimBlank(s: string)
    ensures Trim(s) == "" <==> Blank(s)
  {
    TrimLeftBlank(s);
    var t := TrimLeft(s);
    if t != "" {
      TrimRightKeeps(t);
    }
  }

  lemma {:induction false} TrimRightKeeps(t: string)
    requires t != "" && !IsWhite(t[0])
    ensures TrimRight(t) != ""
  {
    if |t| > 1 && IsWhite(t[|t| - 1]) {
      TrimRightKeeps(t[..|t| - 1]);
    }
  }

  lemma {:induction false} TrimLeftCuts(s: string) returns (l: string)
    ensures s == l + TrimLeft(s) && Blank(l)
  {
    if s != "" && IsWhite(s[0]) {
      var rest := TrimLeftCuts(s[1..]);
      l := [s[0]] + rest;
    } else {
      l := "";
    }
  }

  lemma {:induction false} TrimRightCuts(s: string) returns (r: string)
    ensures s == TrimRight(s) + r && Blank(r)
  {
    if s != "" && IsWhite(s[|s| - 1]) {
      var rest := TrimRightCuts(s[..|s| - 1]);
      r := rest + [s[|s| - 1]];
    } else {
      r := "";
    }
  }

  lemma {:induction false} TrimRightKeepsHead(t: string)
    ensures TrimRight(t) != "" ==> TrimRight(t)[0] == t[0]
  {
    if |t| > 1 && IsWhite(t[|t| - 1]) {
      TrimRightKeepsHead(t[..|t| - 1]);
    }
  }

  /** What trimming cuts off at either end is white space, and what it leaves neither begins nor ends
      with any. */
  lemma TrimMeaning(s: string) returns (l: string, r: string)
    ensures s == l + Trim(s) + r && Blank(l) && Blank(r)
    ensures Trim(s) != "" ==> !IsWhite(Trim(s)[0]) && !IsWhite(Trim(s)[|Trim(s)| - 1])
  {
    l := TrimLeftCuts(s);
    r := TrimRightCuts(TrimLeft(s));
    TrimRightKeepsHead(TrimLeft(s));
  }

  /** White space is U+0009 to U+000D and U+0020. */
  lemma WhiteSpace(c: char)
    ensures IsWhite(c) <==> 9 <= c as int <= 13 || c as int == 32
  {
  }
}

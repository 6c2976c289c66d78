/** A printer for rule expressions that writes no more parentheses than the grammar at the head of
    server/internal/router/expr/expr.go forces, and the proof that compiling its output gives the
    tree back. */
module ExprPrinter {
  import opened Prelude
  import opened ExprSyntax
  import opened ExprLexer
  import opened ExprParser

  // Grammar levels: 0 or, 1 and, 2 not, 3 comparison, 4 primary.

  function Level(e: Node): nat {
    match e
    case Logic(op, _, _) => if op == Or then 0 else 1
    case Not(_) => 2
    case Cmp(_, _, _, _) => 3
    case _ => 4
  }

  // ------------------------------------------------------------------ tokens

  function Toks(p: nat, e: Node): seq<Token>
    decreases e, 1
  {
    if Level(e) < p then [LParen] + BareToks(e) + [RParen] else BareToks(e)
  }

  function LogicToken(op: LogicOp): Token {
    OpTok(if op == Or then "||" else "&&")
  }

  function BareToks(e: Node): seq<Token>
    decreases e, 0
  {
    match e
    case BoolLit(b) => [BoolTok(b)]
    case IntLit(n) => [IntTok(n)]
    case StrLit(s) => [StrTok(s)]
    case VarRef(name, _) => [IdentTok(name)]
    case Not(x) => [OpTok("!")] + Toks(2, x)
    case Logic(op, l, r) => Toks(Level(e), l) + [LogicToken(op)] + Toks(Level(e) + 1, r)
    case Cmp(op, a, c, _) => Toks(4, a) + [OpTok(CmpText(op))] + Toks(4, c)
  }

  ghost predicate DerivesAt(p: nat, e: Node, ts: seq<Token>)
    requires p <= 4
  {
    match p
    case 0 => DerivesOr(e, ts)
    case 1 => DerivesAnd(e, ts)
    case 2 => DerivesNot(e, ts)
    case 3 => DerivesComparison(e, ts)
    case _ => DerivesPrimary(e, ts)
  }

  lemma {:induction false} Weaken(p: nat, q: nat, e: Node, ts: seq<Token>)
    requires p <= q <= 4 && DerivesAt(q, e, ts)
    ensures DerivesAt(p, e, ts)
    decreases q - p
  {
    if p < q {
      Weaken(p + 1, q, e, ts);
      LowerLevels(e, ts);
    }
  }

  lemma {:induction false} TokensDerive(p: nat, e: Node)
    requires p <= 4 && WellTyped(e)
    ensures DerivesAt(p, e, Toks(p, e))
    decreases e, 1
  {
    hide DerivesOr;
    var bare := BareToks(e);
    BareTokensDerive(e);
    if Level(e) < p {
      Weaken(0, Level(e), e, bare);
      assert Toks(p, e)[1..|Toks(p, e)| - 1] == bare;
      assert DerivesPrimary(e, Toks(p, e));
      Weaken(p, 4, e, Toks(p, e));
    } else {
      Weaken(p, Level(e), e, bare);
    }
  }

  lemma {:induction false} BareTokensDerive(e: Node)
    requires WellTyped(e)
    ensures DerivesAt(Level(e), e, BareToks(e))
    decreases e, 0
  {
    var ts := BareToks(e);
    match e
    case BoolLit(_) =>
    case IntLit(_) =>
    case StrLit(_) =>
    case VarRef(_, _) =>
    case Not(x) =>
      TokensDerive(2, x);
      assert ts[1..] == Toks(2, x);
    case Logic(op, l, r) =>
      TokensDerive(Level(e), l);
      TokensDerive(Level(e) + 1, r);
      var k := |Toks(Level(e), l)|;
      assert ts[..k] == Toks(Level(e), l) && ts[k] == LogicToken(op) && ts[k + 1..] == Toks(Level(e) + 1, r);
    case Cmp(op, a, c, _) =>
      TokensDerive(4, a);
      TokensDerive(4, c);
      var k := |Toks(4, a)|;
      assert ts[..k] == Toks(4, a) && ts[k] == OpTok(CmpText(op)) && ts[k + 1..] == Toks(4, c);
  }

  /** No sentence of the grammar writes the same tree with fewer tokens. */
  lemma {:induction false} PrinterIsMinimal(p: nat, e: Node, ts: seq<Token>)
    requires p <= 4 && DerivesAt(p, e, ts)
    ensures |Toks(p, e)| <= |ts|
    decreases |ts|
  {
    hide DerivesOr, DerivesAnd, DerivesNot, DerivesComparison, DerivesPrimary;
    Weaken(0, p, e, ts);
    DerivationCases(e, ts);
    if ParenDerivation(e, ts) {
      PrinterIsMinimal(0, e, ts[1..|ts| - 1]);
    } else {
      UnparenthesisedLevel(p, e, ts);
      if NotDerivation(e, ts) {
        PrinterIsMinimal(2, e.x, ts[1..]);
      } else if LogicDerivation(e, ts) {
        var k :| 0 <= k < |ts|
                 && DerivesOr(e.l, ts[..k]) && DerivesOr(e.r, ts[k + 1..])
                 && (e.lop == And ==> DerivesAnd(e.l, ts[..k]) && DerivesNot(e.r, ts[k + 1..]))
                 && (e.lop == Or ==> DerivesAnd(e.r, ts[k + 1..]));
        PrinterIsMinimal(Level(e), e.l, ts[..k]);
        PrinterIsMinimal(Level(e) + 1, e.r, ts[k + 1..]);
      } else if CmpDerivation(e, ts) {
        var k :| 0 <= k < |ts| && DerivesPrimary(e.a, ts[..k]) && DerivesPrimary(e.c, ts[k + 1..]);
        PrinterIsMinimal(4, e.a, ts[..k]);
        PrinterIsMinimal(4, e.c, ts[k + 1..]);
      }
    }
  }

  /** Without outer parentheses a tree can only stand where its own level is allowed. */
  lemma UnparenthesisedLevel(p: nat, e: Node, ts: seq<Token>)
    requires p <= 4 && DerivesAt(p, e, ts) && !ParenDerivation(e, ts)
    ensures Level(e) >= p
  {
    if DerivesPrimary(e, ts) {
      assert LeafDerivation(e, ts);
    } else if DerivesComparison(e, ts) {
      assert e.Cmp? && p != 4;
    } else if DerivesNot(e, ts) {
      assert e.Not? && p <= 2;
    } else if DerivesAnd(e, ts) {
      assert e.Logic? && e.lop == And && p <= 1;
    } else {
      assert p == 0;
    }
  }

  // ------------------------------------------------------------------ text

  function Digit(n: nat): char
    requires n < 10
  {
    '0' + n as char
  }

  function Decimal(n: nat): (s: string)
    ensures s != ""
  {
    if n < 10 then [Digit(n)] else Decimal(n / 10) + [Digit(n % 10)]
  }

  function Escape(s: string): string {
    if s == "" then ""
    else EscapeChar(s[0]) + Escape(s[1..])
  }

  function EscapeChar(c: char): string {
    if c == '"' || c == '\\' then ['\\', c] else [c]
  }

  function Text(p: nat, e: Node): string
    decreases e, 1
  {
    if Level(e) < p then "(" + BareText(e) + ")" else BareText(e)
  }

  function LogicText(op: LogicOp): string { if op == Or then "||" else "&&" }

  function BareText(e: Node): string
    decreases e, 0
  {
    match e
    case BoolLit(b) => if b then "true" else "false"
    case IntLit(n) => Decimal(if n < 0 then 0 else n)
    case StrLit(s) => "\"" + Escape(s) + "\""
    case VarRef(name, _) => name
    case Not(x) => "!" + Text(2, x)
    case Logic(op, l, r) => Text(Level(e), l) + (" " + LogicText(op) + " ") + Text(Level(e) + 1, r)
    case Cmp(op, a, c, _) => Text(4, a) + (" " + CmpText(op) + " ") + Text(4, c)
  }

  function Print(e: Node): string { Text(0, e) }

  // ------------------------------------------------------------------ the text lexes to the tokens

  /** What may follow a printed tree without being drawn into its last token. */
  predicate Delimited(s: string) {
    s == "" || s[0] == ' ' || s[0] == ')'
  }

  lemma {:induction false} DecimalIsDigits(n: nat)
    ensures forall c | c in Decimal(n) :: IsDigit(c)
    ensures DecValue(Decimal(n)) == n
  {
    if n < 10 {
      assert Decimal(n)[..0] == "";
    } else {
      DecimalIsDigits(n / 10);
      assert Decimal(n)[..|Decimal(n)| - 1] == Decimal(n / 10);
    }
  }

  /** Escaping is undone by the lexer, whatever the literal contains. */
  lemma {:induction false} EscapeRoundTrip(s: string, rest: string)
    ensures StringBody(Escape(s) + ("\"" + rest), '"') == Some(Body(s, |Escape(s)|))
  {
    hide StringBody;
    var close := "\"" + rest;
    if s == "" {
      assert Escape(s) + close == close;
      StringEnds(close, '"');
    } else {
      var tail := Escape(s[1..]) + close;
      EscapeRoundTrip(s[1..], rest);
      EscapeStep(s[0], tail, StringBody(tail, '"').value);
      assert Escape(s) + close == EscapeChar(s[0]) + tail;
      assert [s[0]] + s[1..] == s;
    }
  }

  /** An escaped character is read back as itself. */
  lemma EscapeStep(c: char, tail: string, body: Body)
    requires StringBody(tail, '"') == Some(body)
    ensures StringBody(EscapeChar(c) + tail, '"') == Some(Body([c] + body.text, body.len + |EscapeChar(c)|))
  {
    var whole := EscapeChar(c) + tail;
    AfterOne("", 0, whole, '"');
    var skip := |EscapeChar(c)| - 1;
    assert Escapes(whole) <==> skip == 1;
    assert whole[skip] == c && whole[skip + 1..] == tail;
    hide StringBody;
    AfterNothing(whole, '"');
    assert "" + [c] == [c];
  }

  lemma WordLexes(w: string, rest: string)
    requires w != "" && IsIdentStart(w[0]) && (forall c | c in w :: IsIdentPart(c)) && Delimited(rest)
    ensures LexSpec(w + rest) == Prepend([WordToken(w)], LexSpec(rest))
  {
    IdentRunOf(w, rest);
    assert (w + rest)[..|w|] == w;
    OneToken(w, WordToken(w), rest);
  }

  lemma NumberLexes(n: int, rest: string)
    requires 0 <= n <= MAX_INT64 && Delimited(rest)
    ensures LexSpec(Decimal(n) + rest) == Prepend([IntTok(n)], LexSpec(rest))
  {
    var w := Decimal(n);
    DecimalIsDigits(n);
    assert w[0] in w;
    DigitRunOf(w, rest);
    assert (w + rest)[..|w|] == w;
    OneToken(w, IntTok(n), rest);
  }

  lemma StringLexes(s: string, rest: string)
    ensures LexSpec("\"" + Escape(s) + "\"" + rest) == Prepend([StrTok(s)], LexSpec(rest))
  {
    var w := "\"" + Escape(s) + "\"";
    EscapeRoundTrip(s, rest);
    assert (w + rest)[1..] == Escape(s) + ("\"" + rest);
    OneToken(w, StrTok(s), rest);
  }

  /** Binary operators are printed between single spaces. */
  lemma OperatorLexes(op: string, rest: string)
    requires op == "&&" || op == "||" || exists c: CmpOp :: op == CmpText(c)
    ensures LexSpec(" " + op + " " + rest) == Prepend([OpTok(op)], LexSpec(rest))
  {
    var spaced := " " + rest;
    assert spaced[1..] == rest && LexSpec(spaced) == LexSpec(rest);
    var whole := " " + op + " " + rest;
    assert whole[1..] == op + spaced;
    assert (op + spaced)[0] == op[0] && (op + spaced)[|op|] == ' ';
    assert [op[0]] == op || [op[0], op[1]] == op;
    OneToken(op, OpTok(op), spaced);
  }

  lemma {:induction false} StartsCleanly(p: nat, e: Node)
    requires WellTyped(e)
    ensures var s := Text(p, e); s != "" && s[0] != '=' && !IsSpace(s[0]) && s[0] != '\U{000b}' && s[0] != '\U{000c}'
    decreases e
  {
    match e
    case IntLit(n) =>
      DecimalIsDigits(n);
      assert Decimal(n)[0] in Decimal(n);
    case Logic(_, l, _) => StartsCleanly(Level(e), l);
    case Cmp(_, a, _, _) => StartsCleanly(4, a);
    case _ =>
  }

  lemma PrependTwice(a: seq<Token>, b: seq<Token>, rest: Tokens)
    ensures Prepend(a, Prepend(b, rest)) == Prepend(a + b, rest)
  {
    if rest.Ok? {
      assert a + (b + rest.value) == (a + b) + rest.value;
    }
  }

  /** Two operands that lex as expected, joined by a spaced operator. */
  lemma BinaryLexes(lt: string, ls: seq<Token>, op: string, rt: string, rs: seq<Token>, rest: string)
    requires op == "&&" || op == "||" || exists c: CmpOp :: op == CmpText(c)
    requires LexSpec(rt + rest) == Prepend(rs, LexSpec(rest))
    requires var tail := " " + op + " " + (rt + rest); LexSpec(lt + tail) == Prepend(ls, LexSpec(tail))
    ensures LexSpec(lt + (" " + op + " ") + rt + rest) == Prepend(ls + [OpTok(op)] + rs, LexSpec(rest))
  {
    hide LexSpec;
    var tail := " " + op + " " + (rt + rest);
    OperatorLexes(op, rt + rest);
    assert lt + (" " + op + " ") + rt + rest == lt + tail;
    PrependTwice([OpTok(op)], rs, LexSpec(rest));
    PrependTwice(ls, [OpTok(op)] + rs, LexSpec(rest));
    assert ls + [OpTok(op)] + rs == ls + ([OpTok(op)] + rs);
  }

  lemma ParenLexes(rest: string)
    ensures LexSpec("(" + rest) == Prepend([LParen], LexSpec(rest))
    ensures LexSpec(")" + rest) == Prepend([RParen], LexSpec(rest))
  {
    hide LexSpec;
    OneToken("(", LParen, rest);
    OneToken(")", RParen, rest);
  }

  lemma ParensLex(bt: string, bs: seq<Token>, rest: string)
    requires LexSpec(bt + (")" + rest)) == Prepend(bs, LexSpec(")" + rest))
    ensures LexSpec("(" + bt + ")" + rest) == Prepend([LParen] + bs + [RParen], LexSpec(rest))
  {
    hide LexSpec, Prepend;
    ParenLexes(rest);
    PrependTwice(bs, [RParen], LexSpec(rest));
    ParenLexes(bt + (")" + rest));
    PrependTwice([LParen], bs + [RParen], LexSpec(rest));
    assert "(" + bt + ")" + rest == "(" + (bt + (")" + rest));
    assert [LParen] + bs + [RParen] == [LParen] + (bs + [RParen]);
  }

  lemma {:induction false} TextLexes(p: nat, e: Node, rest: string)
    requires WellTyped(e) && Delimited(rest)
    ensures LexSpec(Text(p, e) + rest) == Prepend(Toks(p, e), LexSpec(rest))
    decreases e, 1
  {
    hide BareText, BareToks, LexSpec;
    if Level(e) < p {
      BareTextLexes(e, ")" + rest);
      ParensLex(BareText(e), BareToks(e), rest);
    } else {
      BareTextLexes(e, rest);
    }
  }

  lemma {:induction false} BareTextLexes(e: Node, rest: string)
    requires WellTyped(e) && Delimited(rest)
    ensures LexSpec(BareText(e) + rest) == Prepend(BareToks(e), LexSpec(rest))
    decreases e, 0
  {
    hide LexSpec;
    match e
    case BoolLit(b) => WordLexes(if b then "true" else "false", rest);
    case IntLit(n) => NumberLexes(n, rest);
    case StrLit(s) => StringLexes(s, rest);
    case VarRef(name, _) => WordLexes(name, rest);
    case Not(x) =>
      TextLexes(2, x, rest);
      StartsCleanly(2, x);
      var inner := Text(2, x) + rest;
      assert BareText(e) + rest == "!" + inner;
      OneToken("!", OpTok("!"), inner);
      PrependTwice([OpTok("!")], Toks(2, x), LexSpec(rest));
    case Logic(op, l, r) =>
      var lt, rt := Text(Level(e), l), Text(Level(e) + 1, r);
      TextLexes(Level(e) + 1, r, rest);
      TextLexes(Level(e), l, " " + LogicText(op) + " " + (rt + rest));
      BinaryLexes(lt, Toks(Level(e), l), LogicText(op), rt, Toks(Level(e) + 1, r), rest);
    case Cmp(op, a, c, _) =>
      TextLexes(4, c, rest);
      TextLexes(4, a, " " + CmpText(op) + " " + (Text(4, c) + rest));
      BinaryLexes(Text(4, a), Toks(4, a), CmpText(op), Text(4, c), Toks(4, c), rest);
  }

  lemma {:induction false} ToksHaveNoEof(p: nat, e: Node)
    ensures Eof !in Toks(p, e)
    decreases e
  {
    match e
    case Not(x) => ToksHaveNoEof(2, x);
    case Logic(_, l, r) => ToksHaveNoEof(Level(e), l); ToksHaveNoEof(Level(e) + 1, r);
    case Cmp(_, a, c, _) => ToksHaveNoEof(4, a); ToksHaveNoEof(4, c);
    case _ =>
  }

  /** Compiling the printed text of any well-typed condition gives back that very condition,
      with exactly its references. */
  lemma CompilePrintRoundTrip(e: Node)
    requires WellTyped(e) && Typ(e) == TBool
    ensures CompileSpec(Print(e)) == Ok(Program(Some(e), Refs(e)))
  {
    hide Toks, DerivesOr, ParseAll;
    var src := Print(e);
    StartsCleanly(0, e);
    assert src[0] in src;
    TextLexes(0, e, "");
    assert src + "" == src;
    TokensDerive(0, e);
    ToksHaveNoEof(0, e);
    ParserIsGrammar(e, Toks(0, e));
  }

  // ------------------------------------------------------------------ what a source text means

  /** The condition compiles and holds in exactly these environments. */
  ghost predicate HoldsIff(src: string, v: Vars, b: bool) {
    CompileSpec(src).Ok? && EvalProgram(CompileSpec(src).value, v) == b
  }

  lemma Holds(e: Node, v: Vars, b: bool)
    requires WellTyped(e) && Typ(e) == TBool && Eval(e, v) == VBool(b)
    ensures HoldsIff(Print(e), v, b)
  {
    hide CompileSpec;
    CompilePrintRoundTrip(e);
  }

  lemma ComparisonHolds(op: CmpOp, spaced: string, a: Node, c: Node, v: Vars, b: bool)
    requires WellTyped(Cmp(op, a, c, Typ(a) == TInt)) && Level(a) == Level(c) == 4 && spaced == " " + CmpText(op) + " "
    requires Eval(Cmp(op, a, c, Typ(a) == TInt), v) == VBool(b)
    ensures HoldsIff(BareText(a) + spaced + BareText(c), v, b)
  {
    hide HoldsIff;
    var e := Cmp(op, a, c, Typ(a) == TInt);
    Holds(e, v, b);
    assert Text(4, a) == BareText(a) && Text(4, c) == BareText(c);
    assert BareText(e) == Text(4, a) + spaced + Text(4, c);
  }

  /** A numeric variable compared with a number, written out. */
  lemma NumberComparison(name: string, n: nat, v: Vars)
    requires name in {"w", "t", "tokens"} && n <= MAX_INT64
    ensures var x := if name in v.ints then v.ints[name] else 0;
            && HoldsIff(name + " == " + Decimal(n), v, x == n) && HoldsIff(name + " != " + Decimal(n), v, x != n)
            && HoldsIff(name + " < " + Decimal(n), v, x < n) && HoldsIff(name + " <= " + Decimal(n), v, x <= n)
            && HoldsIff(name + " > " + Decimal(n), v, x > n) && HoldsIff(name + " >= " + Decimal(n), v, x >= n)
  {
    hide HoldsIff, Decimal;
    var a, c, x := VarRef(name, TInt), IntLit(n), if name in v.ints then v.ints[name] else 0;
    IntComparisons(a, c, v, x, n);
    ComparisonHolds(Eq, " == ", a, c, v, x == n);
    ComparisonHolds(Ne, " != ", a, c, v, x != n);
    ComparisonHolds(Lt, " < ", a, c, v, x < n);
    ComparisonHolds(Le, " <= ", a, c, v, x <= n);
    ComparisonHolds(Gt, " > ", a, c, v, x > n);
    ComparisonHolds(Ge, " >= ", a, c, v, x >= n);
  }

  /** A string variable compared with a quoted string. */
  lemma StringComparison(name: string, s: string, v: Vars)
    requires name in {"group", "model"}
    ensures var x, text := if name in v.strs then v.strs[name] else "", "\"" + Escape(s) + "\"";
            && HoldsIff(name + " == " + text, v, x == s) && HoldsIff(name + " != " + text, v, x != s)
            && HoldsIff(name + " < " + text, v, Precedes(x, s))
            && HoldsIff(name + " <= " + text, v, x == s || Precedes(x, s))
            && HoldsIff(name + " > " + text, v, Precedes(s, x))
            && HoldsIff(name + " >= " + text, v, x == s || Precedes(s, x))
  {
    hide HoldsIff, Escape, Precedes;
    var a, c, x := VarRef(name, TStr), StrLit(s), if name in v.strs then v.strs[name] else "";
    var text := "\"" + Escape(s) + "\"";
    StringComparisons(a, c, v, x, s);
    ComparisonHolds(Eq, " == ", a, c, v, x == s);
    ComparisonHolds(Ne, " != ", a, c, v, x != s);
    ComparisonHolds(Lt, " < ", a, c, v, Precedes(x, s));
    ComparisonHolds(Le, " <= ", a, c, v, x == s || Precedes(x, s));
    ComparisonHolds(Gt, " > ", a, c, v, Precedes(s, x));
    ComparisonHolds(Ge, " >= ", a, c, v, x == s || Precedes(s, x));
  }

  /** Conditions joined or negated. A part is put in parentheses where it has to be. */
  lemma JoinedConditions(l: Node, r: Node, v: Vars, p: bool, q: bool)
    requires WellTyped(l) && Typ(l) == TBool && WellTyped(r) && Typ(r) == TBool
    requires HoldsIff(Print(l), v, p) && HoldsIff(Print(r), v, q)
    ensures HoldsIff(Text(1, l) + " && " + Text(2, r), v, p && q)
    ensures HoldsIff(Text(0, l) + " || " + Text(1, r), v, p || q)
    ensures HoldsIff("!" + Text(2, l), v, !p)
  {
    hide CompileSpec;
    CompilePrintRoundTrip(l);
    CompilePrintRoundTrip(r);
    TypedEvaluation(l, v);
    TypedEvaluation(r, v);
    Connectives(l, r, v, p, q);
    Holds(Logic(And, l, r), v, p && q);
    Holds(Logic(Or, l, r), v, p || q);
    Holds(Not(l), v, !p);
    assert " " + LogicText(And) + " " == " && " && " " + LogicText(Or) + " " == " || ";
    assert BareText(Logic(And, l, r)) == Text(1, l) + " && " + Text(2, r);
    assert BareText(Logic(Or, l, r)) == Text(0, l) + " || " + Text(1, r);
    assert BareText(Not(l)) == "!" + Text(2, l);
  }

  /** The constants mean themselves. */
  lemma Constants(v: Vars)
    ensures HoldsIff("true", v, true) && HoldsIff("false", v, false)
  {
    hide HoldsIff;
    Holds(BoolLit(true), v, true);
    Holds(BoolLit(false), v, false);
  }

  /** A comparison, its verdict and its text. */
  ghost predicate Says(e: Node, v: Vars, b: bool, text: string) {
    WellTyped(e) && Typ(e) == TBool && Level(e) == 3 && Eval(e, v) == VBool(b) && BareText(e) == text
  }

  lemma TokensAbove(n: nat, v: Vars)
    requires n <= MAX_INT64
    ensures Says(Above(n), v, (if "tokens" in v.ints then v.ints["tokens"] else 0) > n, "tokens > " + Decimal(n))
  {
    hide Decimal;
    var a, c := VarRef("tokens", TInt), IntLit(n);
    assert Text(4, a) == BareText(a) == "tokens" && Text(4, c) == BareText(c) == Decimal(n);
    assert " " + CmpText(Gt) + " " == " > " && "tokens" + " > " == "tokens > ";
    assert BareText(Above(n)) == Text(4, a) + " > " + Text(4, c);
    assert WellTyped(a) && WellTyped(c) && Eval(a, v) == VInt(Lookup(v.ints, "tokens", 0)) && Eval(c, v) == VInt(n);
  }

  lemma AndText(k: nat, a: Node, b: Node)
    requires k <= 1 && Level(a) == Level(b) == 3
    ensures Text(k, Logic(And, a, b)) == BareText(a) + " && " + BareText(b)
  {
    assert Text(1, a) == BareText(a) && Text(2, b) == BareText(b);
    assert " " + LogicText(And) + " " == " && ";
    assert BareText(Logic(And, a, b)) == BareText(a) + " && " + BareText(b);
  }

  lemma AndHolds(a: Node, b: Node, v: Vars, p: bool, q: bool, s: string, t: string)
    requires Says(a, v, p, s) && Says(b, v, q, t)
    ensures var both := Logic(And, a, b);
            WellTyped(both) && Typ(both) == TBool && HoldsIff(Print(both), v, p && q)
  {
    hide HoldsIff, BareText;
    Connectives(a, b, v, p, q);
    Holds(Logic(And, a, b), v, p && q);
  }

  lemma SaysHolds(e: Node, v: Vars, b: bool, text: string)
    requires Says(e, v, b, text)
    ensures HoldsIff(Print(e), v, b) && Text(0, e) == Text(1, e) == Text(2, e) == text
  {
    hide HoldsIff;
    Holds(e, v, b);
  }

  lemma OrOfAnd(a: Node, b: Node, c: Node, v: Vars, p: bool, q: bool, r: bool, s: string, t: string, u: string)
    requires Says(a, v, p, s) && Says(b, v, q, t) && Says(c, v, r, u)
    ensures HoldsIff(s + " || " + (t + " && " + u), v, p || (q && r))
  {
    hide HoldsIff, Text, BareText, Print;
    SaysHolds(a, v, p, s);
    AndHolds(b, c, v, q, r, t, u);
    AndText(1, b, c);
    JoinedConditions(a, Logic(And, b, c), v, p, q && r);
  }

  lemma AndThenOr(a: Node, b: Node, c: Node, v: Vars, p: bool, q: bool, r: bool, s: string, t: string, u: string)
    requires Says(a, v, p, s) && Says(b, v, q, t) && Says(c, v, r, u)
    ensures HoldsIff(s + " && " + t + " || " + u, v, (p && q) || r)
  {
    hide HoldsIff, Text, BareText, Print;
    SaysHolds(c, v, r, u);
    AndHolds(a, b, v, p, q, s, t);
    AndText(0, a, b);
    JoinedConditions(Logic(And, a, b), c, v, p && q, r);
  }

  lemma NotThenAnd(a: Node, b: Node, v: Vars, p: bool, q: bool, s: string, t: string)
    requires Says(a, v, p, s) && Says(b, v, q, t)
    ensures HoldsIff("!" + s + " && " + t, v, !p && q)
  {
    hide HoldsIff;
    var no := Not(a);
    Connectives(a, b, v, p, q);
    Connectives(no, b, v, !p, q);
    assert Text(2, a) == s && Text(2, b) == t;
    assert Text(1, no) == BareText(no) == "!" + s;
    assert BareText(Logic(And, no, b)) == "!" + s + " && " + t;
    Holds(Logic(And, no, b), v, !p && q);
  }

  /** Comparisons bind more tightly than !, that more than &&, and that more than ||. */
  lemma Precedence(k: nat, m: nat, n: nat, v: Vars)
    requires k <= MAX_INT64 && m <= MAX_INT64 && n <= MAX_INT64
    ensures var x := if "tokens" in v.ints then v.ints["tokens"] else 0;
            var p, q, r := "tokens > " + Decimal(k), "tokens > " + Decimal(m), "tokens > " + Decimal(n);
            && HoldsIff(p + " || " + (q + " && " + r), v, x > k || (x > m && x > n))
            && HoldsIff(p + " && " + q + " || " + r, v, (x > k && x > m) || x > n)
            && HoldsIff("!" + p + " && " + q, v, !(x > k) && x > m)
  {
    hide HoldsIff, Decimal, Says, Above;
    var x := if "tokens" in v.ints then v.ints["tokens"] else 0;
    var p, q, r := "tokens > " + Decimal(k), "tokens > " + Decimal(m), "tokens > " + Decimal(n);
    TokensAbove(k, v);
    TokensAbove(m, v);
    TokensAbove(n, v);
    OrOfAnd(Above(k), Above(m), Above(n), v, x > k, x > m, x > n, p, q, r);
    AndThenOr(Above(k), Above(m), Above(n), v, x > k, x > m, x > n, p, q, r);
    NotThenAnd(Above(k), Above(m), v, x > k, x > m, p, q);
  }

  function Above(n: nat): Node { Cmp(Gt, VarRef("tokens", TInt), IntLit(n), true) }
}

/** The recursive-descent parser of the rule expression language
    (server/internal/router/expr/expr.go), the grammar it is meant to implement, and the proof
    that it accepts exactly that grammar. */
module ExprParser {
  import opened Prelude
  import opened ExprSyntax
  import opened Text
  import opened ExprLexer

  datatype ParseError =
    | Unexpected
    | MissingParen
    | UnknownVariable
    | NeedsBooleans
    | CannotCompare
    | NotACondition
    | Lexical(e: LexError)

  /** A subtree and the index of the token after it. */
  datatype Parsed = Parsed(e: Node, next: nat)

  type Outcome = Result<Parsed, ParseError>

  /** A token sequence as the lexer produces it: closed by Eof. */
  predicate Closed(ts: seq<Token>) {
    |ts| > 0 && ts[|ts| - 1] == Eof
  }

  function CmpText(op: CmpOp): string {
    match op
    case Eq => "=="
    case Ne => "!="
    case Lt => "<"
    case Le => "<="
    case Gt => ">"
    case Ge => ">="
  }

  function CmpOf(t: Token): (r: Option<CmpOp>)
    ensures r.Some? ==> t == OpTok(CmpText(r.value))
    ensures forall op: CmpOp :: t == OpTok(CmpText(op)) ==> r == Some(op)
  {
    if t == OpTok("==") then Some(Eq)
    else if t == OpTok("!=") then Some(Ne)
    else if t == OpTok("<") then Some(Lt)
    else if t == OpTok("<=") then Some(Le)
    else if t == OpTok(">") then Some(Gt)
    else if t == OpTok(">=") then Some(Ge)
    else None
  }

  /** The leaf a single token stands for. */
  function LeafOf(t: Token): Option<Node> {
    match t
    case IntTok(n) => Some(IntLit(n))
    case StrTok(s) => Some(StrLit(s))
    case BoolTok(b) => Some(BoolLit(b))
    case IdentTok(name) => if name in KNOWN_VARS then Some(VarRef(name, VarType(name))) else None
    case _ => None
  }

  predicate AreBool(l: Node, r: Node) { Typ(l) == TBool && Typ(r) == TBool }

  // ------------------------------------------------------------------ specification of the parser

  function ParseOr(ts: seq<Token>, i: nat): (r: Outcome)
    requires Closed(ts) && i < |ts|
    ensures r.Ok? ==> i < r.value.next < |ts|
    decreases |ts| - i, 4
  {
    match ParseAnd(ts, i)
    case Err(e) => Err(e)
    case Ok(Parsed(left, j)) => OrTail(ts, left, j)
  }

  function OrTail(ts: seq<Token>, left: Node, i: nat): (r: Outcome)
    requires Closed(ts) && i < |ts|
    ensures r.Ok? ==> i <= r.value.next < |ts|
    decreases |ts| - i, 4
  {
    if ts[i] != OpTok("||") then Ok(Parsed(left, i))
    else
      match ParseAnd(ts, i + 1)
      case Err(e) => Err(e)
      case Ok(Parsed(right, j)) =>
        if !AreBool(left, right) then Err(NeedsBooleans) else OrTail(ts, Logic(Or, left, right), j)
  }

  function ParseAnd(ts: seq<Token>, i: nat): (r: Outcome)
    requires Closed(ts) && i < |ts|
    ensures r.Ok? ==> i < r.value.next < |ts|
    decreases |ts| - i, 3
  {
    match ParseNot(ts, i)
    case Err(e) => Err(e)
    case Ok(Parsed(left, j)) => AndTail(ts, left, j)
  }

  function AndTail(ts: seq<Token>, left: Node, i: nat): (r: Outcome)
    requires Closed(ts) && i < |ts|
    ensures r.Ok? ==> i <= r.value.next < |ts|
    decreases |ts| - i, 3
  {
    if ts[i] != OpTok("&&") then Ok(Parsed(left, i))
    else
      match ParseNot(ts, i + 1)
      case Err(e) => Err(e)
      case Ok(Parsed(right, j)) =>
        if !AreBool(left, right) then Err(NeedsBooleans) else AndTail(ts, Logic(And, left, right), j)
  }

  function ParseNot(ts: seq<Token>, i: nat): (r: Outcome)
    requires Closed(ts) && i < |ts|
    ensures r.Ok? ==> i < r.value.next < |ts|
    decreases |ts| - i, 2
  {
    if ts[i] == OpTok("!") then
      match ParseNot(ts, i + 1)
      case Err(e) => Err(e)
      case Ok(Parsed(x, j)) => if Typ(x) != TBool then Err(NeedsBooleans) else Ok(Parsed(Not(x), j))
    else ParseComparison(ts, i)
  }

  function ParseComparison(ts: seq<Token>, i: nat): (r: Outcome)
    requires Closed(ts) && i < |ts|
    ensures r.Ok? ==> i < r.value.next < |ts|
    decreases |ts| - i, 1
  {
    match ParsePrimary(ts, i)
    case Err(e) => Err(e)
    case Ok(Parsed(a, j)) =>
      var op := CmpOf(ts[j]);
      if op.None? then Ok(Parsed(a, j))
      else
        match ParsePrimary(ts, j + 1)
        case Err(e) => Err(e)
        case Ok(Parsed(c, k)) =>
          if !ComparableTypes(a, c) then Err(CannotCompare)
          else Ok(Parsed(Cmp(op.value, a, c, Typ(a) == TInt), k))
  }

  function ParsePrimary(ts: seq<Token>, i: nat): (r: Outcome)
    requires Closed(ts) && i < |ts|
    ensures r.Ok? ==> i < r.value.next < |ts|
    decreases |ts| - i, 0
  {
    if ts[i] == LParen then
      match ParseOr(ts, i + 1)
      case Err(e) => Err(e)
      case Ok(Parsed(e, j)) => if ts[j] != RParen then Err(MissingParen) else Ok(Parsed(e, j + 1))
    else if LeafOf(ts[i]).Some? then Ok(Parsed(LeafOf(ts[i]).value, i + 1))
    else if ts[i].IdentTok? then Err(UnknownVariable)
    else Err(Unexpected)
  }

  // ------------------------------------------------------------------ the cursor-driven parser

  /** The source's parser: a fixed token slice and a cursor that every method advances. On
      success each method has read exactly the tokens its specification reads. */
  class Parser {
    const toks: seq<Token>
    var i: nat

    constructor (toks: seq<Token>)
      requires Closed(toks)
      ensures this.toks == toks && i == 0 && Valid()
    {
      this.toks := toks;
      i := 0;
    }

    ghost predicate Valid()
      reads this
    {
      Closed(toks) && i < |toks|
    }

    /** What a parsing method leaves behind. */
    ghost predicate Returned(r: Result<Node, ParseError>, spec: Outcome)
      reads this
    {
      && Valid()
      && (r.Ok? <==> spec.Ok?)
      && (r.Ok? ==> spec.value == Parsed(r.value, i))
      && (r.Err? ==> spec.error == r.error)
    }

    /** The cursor never moves past the closing Eof. */
    method Advance() returns (t: Token)
      requires Valid()
      modifies this
      ensures Valid() && t == toks[old(i)]
      ensures i == if old(i) < |toks| - 1 then old(i) + 1 else old(i)
    {
      t := toks[i];
      if i < |toks| - 1 {
        i := i + 1;
      }
    }

    method Or() returns (r: Result<Node, ParseError>)
      requires Valid()
      modifies this
      ensures Returned(r, ParseOr(toks, old(i)))
      decreases |toks| - i, 4
    {
      ghost var start := i;
      var left := And();
      if left.Err? {
        return left;
      }
      while toks[i] == OpTok("||")
        invariant Valid() && left.Ok? && start < i
        invariant ParseOr(toks, start) == OrTail(toks, left.value, i)
        decreases |toks| - i
      {
        var _ := Advance();
        var right := And();
        if right.Err? {
          return right;
        }
        if Typ(left.value) != TBool || Typ(right.value) != TBool {
          return Err(NeedsBooleans);
        }
        left := Ok(Logic(LogicOp.Or, left.value, right.value));
      }
      return left;
    }

    method And() returns (r: Result<Node, ParseError>)
      requires Valid()
      modifies this
      ensures Returned(r, ParseAnd(toks, old(i)))
      decreases |toks| - i, 3
    {
      ghost var start := i;
      var left := Negation();
      if left.Err? {
        return left;
      }
      while toks[i] == OpTok("&&")
        invariant Valid() && left.Ok? && start < i
        invariant ParseAnd(toks, start) == AndTail(toks, left.value, i)
        decreases |toks| - i
      {
        var _ := Advance();
        var right := Negation();
        if right.Err? {
          return right;
        }
        if Typ(left.value) != TBool || Typ(right.value) != TBool {
          return Err(NeedsBooleans);
        }
        left := Ok(Logic(LogicOp.And, left.value, right.value));
      }
      return left;
    }

    method Negation() returns (r: Result<Node, ParseError>)
      requires Valid()
      modifies this
      ensures Returned(r, ParseNot(toks, old(i)))
      decreases |toks| - i, 2
    {
      if toks[i] == OpTok("!") {
        var _ := Advance();
        var x := Negation();
        if x.Err? {
          return x;
        }
        if Typ(x.value) != TBool {
          return Err(NeedsBooleans);
        }
        return Ok(Not(x.value));
      }
      r := Comparison();
    }

    method Comparison() returns (r: Result<Node, ParseError>)
      requires Valid()
      modifies this
      ensures Returned(r, ParseComparison(toks, old(i)))
      decreases |toks| - i, 1
    {
      var left := Primary();
      if left.Err? {
        return left;
      }
      var op := CmpOf(toks[i]);
      if op.Some? {
        var _ := Advance();
        var right := Primary();
        if right.Err? {
          return right;
        }
        var lt, rt := Typ(left.value), Typ(right.value);
        if lt == TBool || rt == TBool {
          return Err(CannotCompare);
        }
        if lt != rt {
          return Err(CannotCompare);
        }
        return Ok(Cmp(op.value, left.value, right.value, lt == TInt));
      }
      return left;
    }

    method Primary() returns (r: Result<Node, ParseError>)
      requires Valid()
      modifies this
      ensures Returned(r, ParsePrimary(toks, old(i)))
      decreases |toks| - i, 0
    {
      var t := toks[i];
      match t
      case LParen =>
        var _ := Advance();
        var inner := Or();
        if inner.Err? {
          return inner;
        }
        if toks[i] != RParen {
          return Err(MissingParen);
        }
        var _ := Advance();
        return inner;
      case IntTok(n) =>
        var _ := Advance();
        return Ok(IntLit(n));
      case StrTok(s) =>
        var _ := Advance();
        return Ok(StrLit(s));
      case BoolTok(b) =>
        var _ := Advance();
        return Ok(BoolLit(b));
      case IdentTok(name) =>
        var _ := Advance();
        if name !in KNOWN_VARS {
          return Err(UnknownVariable);
        }
        return Ok(VarRef(name, VarType(name)));
      case _ =>
        return Err(Unexpected);
    }
  }

  // ------------------------------------------------------------------ the grammar

  // Which token sequences stand for which tree. These predicates follow the grammar written at the
  // head of the source file, parentheses included, and know nothing of how parsing proceeds.

  ghost predicate DerivesOr(e: Node, ts: seq<Token>)
    decreases |ts|, 4
  {
    || DerivesAnd(e, ts)
    || (&& e.Logic? && e.lop == Or && AreBool(e.l, e.r)
        && exists k | 0 <= k < |ts| ::
             ts[k] == OpTok("||") && DerivesOr(e.l, ts[..k]) && DerivesAnd(e.r, ts[k + 1..]))
  }

  ghost predicate DerivesAnd(e: Node, ts: seq<Token>)
    decreases |ts|, 3
  {
    || DerivesNot(e, ts)
    || (&& e.Logic? && e.lop == And && AreBool(e.l, e.r)
        && exists k | 0 <= k < |ts| ::
             ts[k] == OpTok("&&") && DerivesAnd(e.l, ts[..k]) && DerivesNot(e.r, ts[k + 1..]))
  }

  ghost predicate DerivesNot(e: Node, ts: seq<Token>)
    decreases |ts|, 2
  {
    || DerivesComparison(e, ts)
    || (e.Not? && Typ(e.x) == TBool && ts != [] && ts[0] == OpTok("!") && DerivesNot(e.x, ts[1..]))
  }

  ghost predicate DerivesComparison(e: Node, ts: seq<Token>)
    decreases |ts|, 1
  {
    || DerivesPrimary(e, ts)
    || (&& e.Cmp? && ComparableTypes(e.a, e.c) && e.numeric == (Typ(e.a) == TInt)
        && exists k | 0 <= k < |ts| ::
             ts[k] == OpTok(CmpText(e.cop)) && DerivesPrimary(e.a, ts[..k]) && DerivesPrimary(e.c, ts[k + 1..]))
  }

  ghost predicate DerivesPrimary(e: Node, ts: seq<Token>)
    decreases |ts|, 0
  {
    || (|ts| == 1 && LeafOf(ts[0]) == Some(e))
    || (|ts| >= 2 && ts[0] == LParen && ts[|ts| - 1] == RParen && DerivesOr(e, ts[1..|ts| - 1]))
  }

  // ------------------------------------------------------------------ what is parsed is derived

  lemma {:induction false} OrSound(ts: seq<Token>, i: nat)
    requires Closed(ts) && i < |ts| && ParseOr(ts, i).Ok?
    ensures var Parsed(e, j) := ParseOr(ts, i).value; DerivesOr(e, ts[i..j])
    decreases |ts| - i, 4
  {
    hide ParseAnd, DerivesAnd, OrTail;
    AndSound(ts, i);
    var Parsed(left, j) := ParseAnd(ts, i).value;
    OrTailSound(ts, left, i, j);
  }

  lemma {:induction false} OrTailSound(ts: seq<Token>, left: Node, start: nat, i: nat)
    requires Closed(ts) && start < i < |ts| && DerivesOr(left, ts[start..i]) && OrTail(ts, left, i).Ok?
    ensures var Parsed(e, j) := OrTail(ts, left, i).value; DerivesOr(e, ts[start..j])
    decreases |ts| - i, 4
  {
    hide ParseAnd, DerivesAnd;
    if ts[i] == OpTok("||") {
      AndSound(ts, i + 1);
      var Parsed(right, j) := ParseAnd(ts, i + 1).value;
      var span := ts[start..j];
      SliceSplit(ts, start, j, i - start);
      assert span[i - start] == OpTok("||");
      OrTailSound(ts, Logic(Or, left, right), start, j);
    }
  }

  lemma {:induction false} AndSound(ts: seq<Token>, i: nat)
    requires Closed(ts) && i < |ts| && ParseAnd(ts, i).Ok?
    ensures var Parsed(e, j) := ParseAnd(ts, i).value; DerivesAnd(e, ts[i..j])
    decreases |ts| - i, 3
  {
    hide ParseNot, DerivesNot, AndTail;
    NotSound(ts, i);
    var Parsed(left, j) := ParseNot(ts, i).value;
    AndTailSound(ts, left, i, j);
  }

  lemma {:induction false} AndTailSound(ts: seq<Token>, left: Node, start: nat, i: nat)
    requires Closed(ts) && start < i < |ts| && DerivesAnd(left, ts[start..i]) && AndTail(ts, left, i).Ok?
    ensures var Parsed(e, j) := AndTail(ts, left, i).value; DerivesAnd(e, ts[start..j])
    decreases |ts| - i, 3
  {
    hide ParseNot, DerivesNot;
    if ts[i] == OpTok("&&") {
      NotSound(ts, i + 1);
      var Parsed(right, j) := ParseNot(ts, i + 1).value;
      var span := ts[start..j];
      SliceSplit(ts, start, j, i - start);
      assert span[i - start] == OpTok("&&");
      AndTailSound(ts, Logic(And, left, right), start, j);
    }
  }

  lemma {:induction false} NotSound(ts: seq<Token>, i: nat)
    requires Closed(ts) && i < |ts| && ParseNot(ts, i).Ok?
    ensures var Parsed(e, j) := ParseNot(ts, i).value; DerivesNot(e, ts[i..j])
    decreases |ts| - i, 2
  {
    hide ParseComparison, DerivesComparison;
    if ts[i] == OpTok("!") {
      NotSound(ts, i + 1);
      var Parsed(x, j) := ParseNot(ts, i + 1).value;
      assert ts[i..j][1..] == ts[i + 1..j];
    } else {
      ComparisonSound(ts, i);
    }
  }

  lemma {:induction false} ComparisonSound(ts: seq<Token>, i: nat)
    requires Closed(ts) && i < |ts| && ParseComparison(ts, i).Ok?
    ensures var Parsed(e, j) := ParseComparison(ts, i).value; DerivesComparison(e, ts[i..j])
    decreases |ts| - i, 1
  {
    hide ParsePrimary, DerivesPrimary;
    PrimarySound(ts, i);
    var Parsed(a, j) := ParsePrimary(ts, i).value;
    if CmpOf(ts[j]).Some? {
      PrimarySound(ts, j + 1);
      var Parsed(c, k) := ParsePrimary(ts, j + 1).value;
      var span := ts[i..k];
      SliceSplit(ts, i, k, j - i);
      assert span[j - i] == ts[j];
    }
  }

  lemma {:induction false} PrimarySound(ts: seq<Token>, i: nat)
    requires Closed(ts) && i < |ts| && ParsePrimary(ts, i).Ok?
    ensures var Parsed(e, j) := ParsePrimary(ts, i).value; DerivesPrimary(e, ts[i..j])
    decreases |ts| - i, 0
  {
    hide ParseOr, DerivesOr;
    if ts[i] == LParen {
      OrSound(ts, i + 1);
      var Parsed(e, j) := ParseOr(ts, i + 1).value;
      assert ts[i..j + 1][1..j - i] == ts[i + 1..j];
    }
  }

  // ------------------------------------------------------------------ what is derived is parsed

  lemma {:induction false} NoLeadingOperator(e: Node, ts: seq<Token>)
    requires DerivesComparison(e, ts)
    ensures ts != [] && !ts[0].OpTok?
  {
    if !DerivesPrimary(e, ts) {
      var k :| 0 <= k < |ts| && ts[k] == OpTok(CmpText(e.cop)) && DerivesPrimary(e.a, ts[..k]);
      assert ts[..k][0] == ts[0];
    }
  }

  lemma {:induction false} PrimaryComplete(e: Node, ts: seq<Token>, i: nat, j: nat)
    requires Closed(ts) && i < j < |ts| && DerivesPrimary(e, ts[i..j])
    ensures ParsePrimary(ts, i) == Ok(Parsed(e, j))
    decreases j - i, 0
  {
    hide ParseOr, DerivesOr;
    var span := ts[i..j];
    if !(|span| == 1 && LeafOf(span[0]) == Some(e)) {
      SliceOfSlice(ts, i, j, 1, |span| - 1);
      assert span[|span| - 1] == ts[j - 1];
      NonEmpty(e, ts[i + 1..j - 1]);
      OrComplete(e, ts, i + 1, j - 1);
    }
  }

  lemma {:induction false} NonEmpty(e: Node, ts: seq<Token>)
    requires DerivesOr(e, ts)
    ensures ts != []
  {
    if ts == [] {
      assert !DerivesPrimary(e, ts);
      assert !DerivesComparison(e, ts);
      assert !DerivesNot(e, ts);
    }
  }

  lemma {:induction false} ComparisonComplete(e: Node, ts: seq<Token>, i: nat, j: nat)
    requires Closed(ts) && i < j < |ts| && DerivesComparison(e, ts[i..j]) && CmpOf(ts[j]).None?
    ensures ParseComparison(ts, i) == Ok(Parsed(e, j))
    decreases j - i, 2
  {
    hide ParsePrimary, DerivesPrimary;
    if DerivesPrimary(e, ts[i..j]) {
      PrimaryComplete(e, ts, i, j);
    } else {
      OperatorComplete(e, ts, i, j);
    }
  }

  lemma {:induction false} OperatorComplete(e: Node, ts: seq<Token>, i: nat, j: nat)
    requires Closed(ts) && i < j < |ts| && CmpDerivation(e, ts[i..j])
    ensures ParseComparison(ts, i) == Ok(Parsed(e, j))
    decreases j - i, 1
  {
    hide ParsePrimary, DerivesPrimary;
    var span := ts[i..j];
    var k :| 0 <= k < |span| && span[k] == OpTok(CmpText(e.cop))
             && DerivesPrimary(e.a, span[..k]) && DerivesPrimary(e.c, span[k + 1..]);
    SliceSplit(ts, i, j, k);
    NonEmptyPrimary(e.a, span[..k]);
    NonEmptyPrimary(e.c, span[k + 1..]);
    PrimaryComplete(e.a, ts, i, i + k);
    PrimaryComplete(e.c, ts, i + k + 1, j);
    ComparisonAt(e, ts, i, i + k, j);
  }

  lemma NonEmptyPrimary(e: Node, ts: seq<Token>)
    requires DerivesPrimary(e, ts)
    ensures ts != []
  {
  }

  lemma ComparisonAt(e: Node, ts: seq<Token>, i: nat, k: nat, j: nat)
    requires Closed(ts) && i < k < j - 1 && j < |ts|
    requires e.Cmp? && ComparableTypes(e.a, e.c) && e.numeric == (Typ(e.a) == TInt)
    requires ts[k] == OpTok(CmpText(e.cop))
    requires ParsePrimary(ts, i) == Ok(Parsed(e.a, k)) && ParsePrimary(ts, k + 1) == Ok(Parsed(e.c, j))
    ensures ParseComparison(ts, i) == Ok(Parsed(e, j))
  {
    hide ParsePrimary;
    assert CmpOf(ts[k]) == Some(e.cop);
  }

  lemma {:induction false} NotComplete(e: Node, ts: seq<Token>, i: nat, j: nat)
    requires Closed(ts) && i < j < |ts| && DerivesNot(e, ts[i..j]) && CmpOf(ts[j]).None?
    ensures ParseNot(ts, i) == Ok(Parsed(e, j))
    decreases j - i, 3
  {
    hide ParseComparison, DerivesComparison;
    var span := ts[i..j];
    if DerivesComparison(e, span) {
      NoLeadingOperator(e, span);
      ComparisonComplete(e, ts, i, j);
    } else {
      assert span[1..] == ts[i + 1..j];
      assert DerivesOr(e.x, span[1..]);
      NonEmpty(e.x, span[1..]);
      NotComplete(e.x, ts, i + 1, j);
    }
  }

  /** Left association: whatever follows, a conjunction is read back as the loop's accumulator. */
  lemma {:induction false} AndComplete(e: Node, ts: seq<Token>, i: nat, j: nat)
    requires Closed(ts) && i < j < |ts| && DerivesAnd(e, ts[i..j]) && CmpOf(ts[j]).None?
    ensures ParseAnd(ts, i) == AndTail(ts, e, j)
    decreases j - i, 4
  {
    hide ParseNot, DerivesNot;
    var span := ts[i..j];
    if DerivesNot(e, span) {
      NotComplete(e, ts, i, j);
    } else {
      var k :| 0 <= k < |span| && span[k] == OpTok("&&")
               && DerivesAnd(e.l, span[..k]) && DerivesNot(e.r, span[k + 1..]);
      SliceSplit(ts, i, j, k);
      NonEmptyAnd(e.l, span[..k]);
      NonEmptyNot(e.r, span[k + 1..]);
      AndComplete(e.l, ts, i, i + k);
      NotComplete(e.r, ts, i + k + 1, j);
      AndTailUnfold(ts, e, i + k, j);
    }
  }

  lemma NonEmptyAnd(e: Node, ts: seq<Token>)
    requires DerivesAnd(e, ts)
    ensures ts != []
  {
    LowerLevels(e, ts);
    NonEmpty(e, ts);
  }

  lemma NonEmptyNot(e: Node, ts: seq<Token>)
    requires DerivesNot(e, ts)
    ensures ts != []
  {
    LowerLevels(e, ts);
    NonEmpty(e, ts);
  }

  /** One turn of the conjunction loop. */
  lemma AndTailUnfold(ts: seq<Token>, e: Node, k: nat, j: nat)
    requires Closed(ts) && k + 1 < j < |ts| && ts[k] == OpTok("&&")
    requires e.Logic? && e.lop == And && AreBool(e.l, e.r) && ParseNot(ts, k + 1) == Ok(Parsed(e.r, j))
    ensures AndTail(ts, e.l, k) == AndTail(ts, e, j)
  {
    hide ParseNot;
  }

  /** A conjunction that nothing continues is what the parser reads there. */
  lemma AndEnds(e: Node, ts: seq<Token>, i: nat, j: nat)
    requires Closed(ts) && i < j < |ts| && ts[j] != OpTok("&&") && ParseAnd(ts, i) == AndTail(ts, e, j)
    ensures ParseAnd(ts, i) == Ok(Parsed(e, j)) && ParseOr(ts, i) == OrTail(ts, e, j)
  {
    hide ParseAnd, OrTail;
  }

  /** One turn of the disjunction loop. */
  lemma OrTailUnfold(ts: seq<Token>, e: Node, k: nat, j: nat)
    requires Closed(ts) && k + 1 < j < |ts| && ts[k] == OpTok("||")
    requires e.Logic? && e.lop == Or && AreBool(e.l, e.r) && ParseAnd(ts, k + 1) == Ok(Parsed(e.r, j))
    ensures OrTail(ts, e.l, k) == OrTail(ts, e, j)
  {
    hide ParseAnd;
  }

  lemma {:induction false} OrCompleteTail(e: Node, ts: seq<Token>, i: nat, j: nat)
    requires Closed(ts) && i < j < |ts| && DerivesOr(e, ts[i..j])
    requires CmpOf(ts[j]).None? && ts[j] != OpTok("&&")
    ensures ParseOr(ts, i) == OrTail(ts, e, j)
    decreases j - i, 5
  {
    hide ParseAnd, DerivesAnd, ParseOr, OrTail, AndTail;
    var span := ts[i..j];
    if DerivesAnd(e, span) {
      AndComplete(e, ts, i, j);
      AndEnds(e, ts, i, j);
    } else {
      var k :| 0 <= k < |span| && span[k] == OpTok("||")
               && DerivesOr(e.l, span[..k]) && DerivesAnd(e.r, span[k + 1..]);
      SliceSplit(ts, i, j, k);
      NonEmpty(e.l, span[..k]);
      NonEmptyAnd(e.r, span[k + 1..]);
      OrCompleteTail(e.l, ts, i, i + k);
      AndComplete(e.r, ts, i + k + 1, j);
      AndEnds(e.r, ts, i + k + 1, j);
      OrTailUnfold(ts, e, i + k, j);
    }
  }

  lemma {:induction false} OrComplete(e: Node, ts: seq<Token>, i: nat, j: nat)
    requires Closed(ts) && i < j < |ts| && DerivesOr(e, ts[i..j]) && !ts[j].OpTok?
    ensures ParseOr(ts, i) == Ok(Parsed(e, j))
    decreases j - i, 6
  {
    OrCompleteTail(e, ts, i, j);
  }

  // ------------------------------------------------------------------ whole expressions

  /** Parsing followed by the source's end-of-input test. */
  function ParseAll(ts: seq<Token>): Result<Node, ParseError>
    requires Closed(ts)
  {
    match ParseOr(ts, 0)
    case Err(e) => Err(e)
    case Ok(Parsed(e, j)) => if ts[j] != Eof then Err(Unexpected) else Ok(e)
  }

  /** The parser accepts exactly the sentences of the grammar and returns exactly their trees. */
  lemma ParserIsGrammar(e: Node, body: seq<Token>)
    requires forall t | t in body :: t != Eof
    ensures ParseAll(body + [Eof]) == Ok(e) <==> DerivesOr(e, body)
  {
    hide ParseOr, DerivesOr;
    var ts := body + [Eof];
    if ParseAll(ts) == Ok(e) {
      OrSound(ts, 0);
      var j := ParseOr(ts, 0).value.next;
      assert forall k | 0 <= k < |body| :: ts[k] == body[k] && body[k] in body;
      assert j == |body|;
      assert ts[0..j] == body;
    }
    if DerivesOr(e, body) {
      NonEmpty(e, body);
      assert ts[0..|body|] == body;
      OrComplete(e, ts, 0, |body|);
    }
  }

  /** The grammar is unambiguous: a sentence stands for one tree only. */
  lemma GrammarIsUnambiguous(e: Node, f: Node, body: seq<Token>)
    requires forall t | t in body :: t != Eof
    requires DerivesOr(e, body) && DerivesOr(f, body)
    ensures e == f
  {
    ParserIsGrammar(e, body);
    ParserIsGrammar(f, body);
  }

  predicate LexedInt(t: Token) {
    t.IntTok? ==> 0 <= t.n <= MAX_INT64
  }

  predicate LeafDerivation(e: Node, ts: seq<Token>) {
    |ts| == 1 && LeafOf(ts[0]) == Some(e)
  }

  ghost predicate ParenDerivation(e: Node, ts: seq<Token>) {
    |ts| >= 2 && ts[0] == LParen && ts[|ts| - 1] == RParen && DerivesOr(e, ts[1..|ts| - 1])
  }

  ghost predicate NotDerivation(e: Node, ts: seq<Token>) {
    e.Not? && Typ(e.x) == TBool && ts != [] && ts[0] == OpTok("!") && DerivesNot(e.x, ts[1..])
  }

  ghost predicate LogicDerivation(e: Node, ts: seq<Token>) {
    && e.Logic? && AreBool(e.l, e.r)
    && exists k | 0 <= k < |ts| ::
         && ts[k] == (if e.lop == Or then OpTok("||") else OpTok("&&"))
         && DerivesOr(e.l, ts[..k]) && DerivesOr(e.r, ts[k + 1..])
         && (e.lop == And ==> DerivesAnd(e.l, ts[..k]) && DerivesNot(e.r, ts[k + 1..]))
         && (e.lop == Or ==> DerivesAnd(e.r, ts[k + 1..]))
  }

  ghost predicate CmpDerivation(e: Node, ts: seq<Token>) {
    && e.Cmp? && ComparableTypes(e.a, e.c) && e.numeric == (Typ(e.a) == TInt)
    && exists k | 0 <= k < |ts| ::
         ts[k] == OpTok(CmpText(e.cop)) && DerivesPrimary(e.a, ts[..k]) && DerivesPrimary(e.c, ts[k + 1..])
  }

  lemma LowerLevels(e: Node, ts: seq<Token>)
    ensures DerivesPrimary(e, ts) ==> DerivesComparison(e, ts)
    ensures DerivesComparison(e, ts) ==> DerivesNot(e, ts)
    ensures DerivesNot(e, ts) ==> DerivesAnd(e, ts)
    ensures DerivesAnd(e, ts) ==> DerivesOr(e, ts)
  {
  }

  /** The five ways a derivation can end. */
  lemma DerivationCases(e: Node, ts: seq<Token>)
    requires DerivesOr(e, ts)
    ensures LeafDerivation(e, ts) || ParenDerivation(e, ts) || NotDerivation(e, ts)
            || LogicDerivation(e, ts) || CmpDerivation(e, ts)
  {
    if !DerivesAnd(e, ts) {
      var k :| 0 <= k < |ts| && ts[k] == OpTok("||") && DerivesOr(e.l, ts[..k]) && DerivesAnd(e.r, ts[k + 1..]);
      assert LogicDerivation(e, ts);
    } else if !DerivesNot(e, ts) {
      var k :| 0 <= k < |ts| && ts[k] == OpTok("&&") && DerivesAnd(e.l, ts[..k]) && DerivesNot(e.r, ts[k + 1..]);
      LowerLevels(e.l, ts[..k]);
      LowerLevels(e.r, ts[k + 1..]);
      assert LogicDerivation(e, ts);
    } else if !DerivesComparison(e, ts) {
      assert NotDerivation(e, ts);
    } else if !DerivesPrimary(e, ts) {
      assert CmpDerivation(e, ts);
    }
  }

  lemma SlicesOnly(ts: seq<Token>, i: nat, j: nat)
    requires i <= j <= |ts|
    ensures forall t | t in ts[i..j] :: t in ts
  {
  }

  /** Whatever the grammar derives is well typed. */
  lemma {:induction false} DerivedIsTyped(e: Node, ts: seq<Token>)
    requires DerivesOr(e, ts) && forall t | t in ts :: LexedInt(t)
    ensures WellTyped(e)
    decreases |ts|
  {
    hide DerivesOr, DerivesAnd, DerivesNot, DerivesPrimary;
    DerivationCases(e, ts);
    if LeafDerivation(e, ts) {
      assert LexedInt(ts[0]);
    } else if ParenDerivation(e, ts) {
      SlicesOnly(ts, 1, |ts| - 1);
      DerivedIsTyped(e, ts[1..|ts| - 1]);
    } else if NotDerivation(e, ts) {
      LowerLevels(e.x, ts[1..]);
      SlicesOnly(ts, 1, |ts|);
      DerivedIsTyped(e.x, ts[1..]);
    } else if LogicDerivation(e, ts) {
      var k :| 0 <= k < |ts| && DerivesOr(e.l, ts[..k]) && DerivesOr(e.r, ts[k + 1..]);
      SlicesOnly(ts, 0, k);
      SlicesOnly(ts, k + 1, |ts|);
      DerivedIsTyped(e.l, ts[..k]);
      DerivedIsTyped(e.r, ts[k + 1..]);
    } else {
      var k :| 0 <= k < |ts| && DerivesPrimary(e.a, ts[..k]) && DerivesPrimary(e.c, ts[k + 1..]);
      LowerLevels(e.a, ts[..k]);
      LowerLevels(e.c, ts[k + 1..]);
      SlicesOnly(ts, 0, k);
      SlicesOnly(ts, k + 1, |ts|);
      DerivedIsTyped(e.a, ts[..k]);
      DerivedIsTyped(e.c, ts[k + 1..]);
    }
  }

  lemma {:induction false} DecValueNonNegative(s: string)
    requires forall c | c in s :: IsDigit(c)
    ensures DecValue(s) >= 0
  {
    if s != "" {
      assert s[|s| - 1] in s;
      DecValueNonNegative(s[..|s| - 1]);
    }
  }

  lemma {:induction false} DigitRunIsDigits(s: string)
    ensures forall c | c in s[..DigitRun(s)] :: IsDigit(c)
  {
    if s != "" && IsDigit(s[0]) {
      DigitRunIsDigits(s[1..]);
      assert s[..DigitRun(s)] == [s[0]] + s[1..][..DigitRun(s[1..])];
    }
  }

  lemma {:induction false} LexedIntsInRange(s: string)
    requires LexSpec(s).Ok?
    ensures forall t | t in LexSpec(s).value :: LexedInt(t)
  {
    if s != "" {
      if IsSpace(s[0]) {
        LexedIntsInRange(s[1..]);
      } else {
        var Lexed(tok, len) := Scan(s).value;
        LexedIntsInRange(s[len..]);
        if tok.IntTok? {
          DigitRunIsDigits(s);
          DecValueNonNegative(s[..DigitRun(s)]);
        }
      }
    }
  }

  // ------------------------------------------------------------------ Compile

  function CompileSpec(src: string): Result<Program, ParseError> {
    if Blank(src) then Ok(Program(None, {}))
    else
      match LexSpec(src)
      case Err(e) => Err(Lexical(e))
      case Ok(ts) =>
        match ParseAll(ts)
        case Err(e) => Err(e)
        case Ok(root) =>
          if Typ(root) != TBool then Err(NotACondition) else Ok(Program(Some(root), Refs(root)))
  }

  method Compile(src: string) returns (r: Result<Program, ParseError>)
    ensures r == CompileSpec(src)
  {
    if Blank(src) {
      return Ok(Program(None, {}));
    }
    var toks := Lex(src);
    if toks.Err? {
      return Err(Lexical(toks.error));
    }
    var p := new Parser(toks.value);
    var root := p.Or();
    if root.Err? {
      return Err(root.error);
    }
    if p.toks[p.i] != Eof {
      return Err(Unexpected);
    }
    if Typ(root.value) != TBool {
      return Err(NotACondition);
    }
    var refs := new RefSet();
    refs.CollectRefs(root.value);
    assert {} + Refs(root.value) == Refs(root.value);
    return Ok(Program(Some(root.value), refs.names));
  }

  /** Every source that compiles is well typed, so its evaluation reaches none of the silent
      defaults, and its verdict depends on the reported references alone. */
  lemma CompiledIsTyped(src: string, v: Vars, w: Vars)
    requires CompileSpec(src).Ok?
    ensures var p := CompileSpec(src).value;
            && (p.root.Some? ==>
                  && WellTyped(p.root.value)
                  && StrictEval(p.root.value, v) == Some(VBool(EvalProgram(p, v))))
            && (AgreeOn(p.refs, v, w) ==> EvalProgram(p, v) == EvalProgram(p, w))
  {
    var p := CompileSpec(src).value;
    if p.root.Some? {
      var ts := LexSpec(src).value;
      var body := ts[..|ts| - 1];
      assert ts == body + [Eof];
      ParserIsGrammar(p.root.value, body);
      LexedIntsInRange(src);
      assert forall t | t in body :: t in ts;
      DerivedIsTyped(p.root.value, body);
      TypedEvaluation(p.root.value, v);
      if AgreeOn(p.refs, v, w) {
        RefsDecide(p.root.value, v, w);
      }
    }
  }

  lemma {:induction false} KnownNames(e: Node)
    requires WellTyped(e)
    ensures Refs(e) <= {"w", "t", "tokens", "group", "model"}
  {
    match e
    case Not(x) => KnownNames(x);
    case Logic(_, l, r) => KnownNames(l); KnownNames(r);
    case Cmp(_, a, c, _) => KnownNames(a); KnownNames(c);
    case _ =>
  }

  /** No other variable is ever read: an expression that names one does not compile. */
  lemma CompiledNames(src: string)
    ensures CompileSpec(src).Ok? ==> CompileSpec(src).value.refs <= {"w", "t", "tokens", "group", "model"}
  {
    hide ParseAll, WellTyped;
    if CompileSpec(src).Ok? && CompileSpec(src).value.root.Some? {
      CompiledIsTyped(src, Vars(map[], map[]), Vars(map[], map[]));
      KnownNames(CompileSpec(src).value.root.value);
    }
  }
}

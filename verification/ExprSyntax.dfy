/** Values, types and trees of the routing-rule expression language
    (server/internal/router/expr/expr.go), with its evaluator and reference analysis. */
module ExprSyntax {
  import opened Prelude

  datatype Type = TBool | TInt | TStr

  datatype CmpOp = Eq | Ne | Lt | Le | Gt | Ge

  datatype LogicOp = And | Or

  datatype Node =
    | BoolLit(b: bool)
    | IntLit(n: int)
    | StrLit(s: string)
    | VarRef(name: string, vt: Type)
    | Not(x: Node)
    | Logic(lop: LogicOp, l: Node, r: Node)
    | Cmp(cop: CmpOp, a: Node, c: Node, numeric: bool)

  datatype Val = VBool(b: bool) | VInt(n: int) | VStr(s: string)

  /** Runtime variables; a missing entry reads as 0 or "". */
  datatype Vars = Vars(ints: map<string, int>, strs: map<string, string>)

  /** A compiled rule expression. No root means the source was blank. */
  datatype Program = Program(root: Option<Node>, refs: set<string>)

  const MAX_INT64: int := 0x7fff_ffff_ffff_ffff

  const KNOWN_VARS: set<string> := {"w", "t", "tokens", "group", "model"}

  const NUMERIC_VARS: set<string> := {"w", "t", "tokens"}

  function VarType(name: string): Type {
    if name in NUMERIC_VARS then TInt else TStr
  }

  function Typ(e: Node): Type {
    match e
    case BoolLit(_) => TBool
    case IntLit(_) => TInt
    case StrLit(_) => TStr
    case VarRef(_, vt) => vt
    case Not(_) => TBool
    case Logic(_, _, _) => TBool
    case Cmp(_, _, _, _) => TBool
  }

  // ------------------------------------------------------------------ evaluation

  /** Byte-wise string order, as Go compares strings. */
  predicate StrLess(s: string, t: string) {
    t != "" && (s == "" || s[0] < t[0] || (s[0] == t[0] && StrLess(s[1..], t[1..])))
  }

  predicate CmpInts(op: CmpOp, x: int, y: int) {
    match op
    case Eq => x == y
    case Ne => x != y
    case Lt => x < y
    case Le => x <= y
    case Gt => x > y
    case Ge => x >= y
  }

  predicate CmpStrs(op: CmpOp, x: string, y: string) {
    match op
    case Eq => x == y
    case Ne => x != y
    case Lt => StrLess(x, y)
    case Le => x == y || StrLess(x, y)
    case Gt => StrLess(y, x)
    case Ge => x == y || StrLess(y, x)
  }

  /** The source's unchecked conversions: a value of another type silently becomes the zero value. */
  function AsBool(v: Val): bool { if v.VBool? then v.b else false }

  function AsInt(v: Val): int { if v.VInt? then v.n else 0 }

  function AsStr(v: Val): string { if v.VStr? then v.s else "" }

  function Eval(e: Node, v: Vars): Val {
    match e
    case BoolLit(b) => VBool(b)
    case IntLit(n) => VInt(n)
    case StrLit(s) => VStr(s)
    case VarRef(name, vt) =>
      if vt == TInt then VInt(Lookup(v.ints, name, 0)) else VStr(Lookup(v.strs, name, ""))
    case Not(x) => VBool(!AsBool(Eval(x, v)))
    case Logic(op, l, r) =>
      if op == And then VBool(if !AsBool(Eval(l, v)) then false else AsBool(Eval(r, v)))
      else VBool(if AsBool(Eval(l, v)) then true else AsBool(Eval(r, v)))
    case Cmp(op, a, c, numeric) =>
      if numeric then VBool(CmpInts(op, AsInt(Eval(a, v)), AsInt(Eval(c, v))))
      else VBool(CmpStrs(op, AsStr(Eval(a, v)), AsStr(Eval(c, v))))
  }

  function EvalProgram(p: Program, v: Vars): bool {
    p.root.None? || AsBool(Eval(p.root.value, v))
  }

  // ------------------------------------------------------------------ typing

  predicate ComparableTypes(a: Node, c: Node) {
    Typ(a) != TBool && Typ(c) != TBool && Typ(a) == Typ(c)
  }

  /** Every operand has the type its operator needs. */
  predicate WellTyped(e: Node) {
    match e
    case BoolLit(_) => true
    case IntLit(n) => 0 <= n <= MAX_INT64
    case StrLit(_) => true
    case VarRef(name, vt) => name in KNOWN_VARS && vt == VarType(name)
    case Not(x) => WellTyped(x) && Typ(x) == TBool
    case Logic(_, l, r) => WellTyped(l) && WellTyped(r) && Typ(l) == TBool && Typ(r) == TBool
    case Cmp(_, a, c, numeric) =>
      WellTyped(a) && WellTyped(c) && ComparableTypes(a, c) && numeric == (Typ(a) == TInt)
  }

  function ValType(v: Val): Type {
    match v
    case VBool(_) => TBool
    case VInt(_) => TInt
    case VStr(_) => TStr
  }

  function StrictBool(v: Option<Val>): Option<bool> {
    if v.Some? && v.value.VBool? then Some(v.value.b) else None
  }

  function StrictInt(v: Option<Val>): Option<int> {
    if v.Some? && v.value.VInt? then Some(v.value.n) else None
  }

  function StrictStr(v: Option<Val>): Option<string> {
    if v.Some? && v.value.VStr? then Some(v.value.s) else None
  }

  /** Reference evaluator with no silent defaults: it has no result as soon as any operand, at
      any depth, is not of the type its operator needs. */
  function StrictEval(e: Node, v: Vars): Option<Val> {
    match e
    case BoolLit(b) => Some(VBool(b))
    case IntLit(n) => Some(VInt(n))
    case StrLit(s) => Some(VStr(s))
    case VarRef(name, vt) =>
      (match vt
       case TInt => Some(VInt(Lookup(v.ints, name, 0)))
       case TStr => Some(VStr(Lookup(v.strs, name, "")))
       case TBool => None)
    case Not(x) =>
      var b := StrictBool(StrictEval(x, v));
      if b.None? then None else Some(VBool(!b.value))
    case Logic(op, l, r) =>
      var lb, rb := StrictBool(StrictEval(l, v)), StrictBool(StrictEval(r, v));
      if lb.None? || rb.None? then None
      else Some(VBool(if op == And then lb.value && rb.value else lb.value || rb.value))
    case Cmp(op, a, c, _) =>
      var ai, ci := StrictInt(StrictEval(a, v)), StrictInt(StrictEval(c, v));
      var sa, sc := StrictStr(StrictEval(a, v)), StrictStr(StrictEval(c, v));
      if ai.Some? && ci.Some? then Some(VBool(CmpInts(op, ai.value, ci.value)))
      else if sa.Some? && sc.Some? then Some(VBool(CmpStrs(op, sa.value, sc.value)))
      else None
  }

  /** A well-typed tree evaluates, at every depth, to a value of its declared type and reaches
      none of the silent defaults. */
  lemma {:induction false} TypedEvaluation(e: Node, v: Vars)
    requires WellTyped(e)
    ensures StrictEval(e, v) == Some(Eval(e, v))
    ensures ValType(Eval(e, v)) == Typ(e)
  {
    match e
    case BoolLit(_) =>
    case IntLit(_) =>
    case StrLit(_) =>
    case VarRef(_, _) =>
    case Not(x) => TypedEvaluation(x, v);
    case Logic(_, l, r) => TypedEvaluation(l, v); TypedEvaluation(r, v);
    case Cmp(_, a, c, _) => TypedEvaluation(a, v); TypedEvaluation(c, v);
  }

  /** Strings are totally ordered, so the six string comparisons pair up as negations. */
  lemma {:induction false} StringOrder(x: string, y: string)
    ensures StrLess(x, y) <==> !(x == y || StrLess(y, x))
    ensures !StrLess(x, x)
  {
    if x != "" && y != "" && x[0] == y[0] {
      StringOrder(x[1..], y[1..]);
      assert x == [x[0]] + x[1..] && y == [y[0]] + y[1..];
    }
    if x != "" {
      StringOrder(x[1..], x[1..]);
    }
  }

  /** s comes before t: it ends, or has the smaller character, where they first differ. */
  ghost predicate Precedes(s: string, t: string) {
    exists i: nat ::
      i <= |s| && i < |t| && s[..i] == t[..i] && (i == |s| || s[i] < t[i])
  }

  lemma PrecedesAt(s: string, t: string, i: nat)
    requires i <= |s| && i < |t| && s[..i] == t[..i] && (i == |s| || s[i] < t[i])
    ensures Precedes(s, t)
  {
  }

  lemma HeadsDecide(s: string, t: string)
    requires s == "" || t == "" || s[0] != t[0]
    ensures Precedes(s, t) <==> t != "" && (s == "" || s[0] < t[0])
  {
    if t != "" && (s == "" || s[0] < t[0]) {
      PrecedesAt(s, t, 0);
    }
  }

  lemma {:induction false} StrLessMeaning(s: string, t: string)
    ensures StrLess(s, t) <==> Precedes(s, t)
  {
    if s != "" && t != "" && s[0] == t[0] {
      StrLessMeaning(s[1..], t[1..]);
      if Precedes(s[1..], t[1..]) {
        var i: nat :| i <= |s[1..]| && i < |t[1..]| && s[1..][..i] == t[1..][..i]
                      && (i == |s[1..]| || s[1..][i] < t[1..][i]);
        assert s[..i + 1] == [s[0]] + s[1..][..i] && t[..i + 1] == [t[0]] + t[1..][..i];
        PrecedesAt(s, t, i + 1);
      }
      if Precedes(s, t) {
        var i: nat :| i <= |s| && i < |t| && s[..i] == t[..i] && (i == |s| || s[i] < t[i]);
        assert i > 0;
        assert s[1..][..i - 1] == s[..i][1..] && t[1..][..i - 1] == t[..i][1..];
        PrecedesAt(s[1..], t[1..], i - 1);
      }
    } else {
      HeadsDecide(s, t);
    }
  }

  /** What the six comparisons of integers evaluate to. */
  lemma IntComparisons(a: Node, c: Node, v: Vars, x: int, y: int)
    requires Eval(a, v) == VInt(x) && Eval(c, v) == VInt(y)
    ensures Eval(Cmp(Eq, a, c, true), v) == VBool(x == y) && Eval(Cmp(Ne, a, c, true), v) == VBool(x != y)
    ensures Eval(Cmp(Lt, a, c, true), v) == VBool(x < y) && Eval(Cmp(Le, a, c, true), v) == VBool(x <= y)
    ensures Eval(Cmp(Gt, a, c, true), v) == VBool(x > y) && Eval(Cmp(Ge, a, c, true), v) == VBool(x >= y)
  {
  }

  /** And those of strings. */
  lemma StringComparisons(a: Node, c: Node, v: Vars, x: string, y: string)
    requires Eval(a, v) == VStr(x) && Eval(c, v) == VStr(y)
    ensures Eval(Cmp(Eq, a, c, false), v) == VBool(x == y) && Eval(Cmp(Ne, a, c, false), v) == VBool(x != y)
    ensures Eval(Cmp(Lt, a, c, false), v) == VBool(Precedes(x, y))
    ensures Eval(Cmp(Le, a, c, false), v) == VBool(x == y || Precedes(x, y))
    ensures Eval(Cmp(Gt, a, c, false), v) == VBool(Precedes(y, x))
    ensures Eval(Cmp(Ge, a, c, false), v) == VBool(x == y || Precedes(y, x))
  {
    hide Precedes;
    StrLessMeaning(x, y);
    StrLessMeaning(y, x);
  }

  /** The connectives are those of logic. */
  lemma Connectives(l: Node, r: Node, v: Vars, p: bool, q: bool)
    requires Eval(l, v) == VBool(p) && Eval(r, v) == VBool(q)
    ensures Eval(Logic(And, l, r), v) == VBool(p && q) && Eval(Logic(Or, l, r), v) == VBool(p || q)
    ensures Eval(Not(l), v) == VBool(!p)
  {
  }

  function Negation(op: CmpOp): CmpOp {
    match op
    case Eq => Ne
    case Ne => Eq
    case Lt => Ge
    case Le => Gt
    case Gt => Le
    case Ge => Lt
  }

  /** Negating a comparison is the same as comparing with the opposite operator, for integers and
      for strings. */
  lemma NegatedComparison(op: CmpOp, a: Node, c: Node, numeric: bool, v: Vars)
    ensures Eval(Not(Cmp(op, a, c, numeric)), v) == Eval(Cmp(Negation(op), a, c, numeric), v)
  {
    StringOrder(AsStr(Eval(a, v)), AsStr(Eval(c, v)));
    StringOrder(AsStr(Eval(c, v)), AsStr(Eval(a, v)));
  }

  // ------------------------------------------------------------------ references

  function Refs(e: Node): set<string> {
    match e
    case BoolLit(_) => {}
    case IntLit(_) => {}
    case StrLit(_) => {}
    case VarRef(name, _) => {name}
    case Not(x) => Refs(x)
    case Logic(_, l, r) => Refs(l) + Refs(r)
    case Cmp(_, a, c, _) => Refs(a) + Refs(c)
  }

  /** The set that the source's collectRefs fills in place. */
  class RefSet {
    var names: set<string>

    constructor ()
      ensures names == {}
    {
      names := {};
    }

    method CollectRefs(e: Node)
      modifies this
      ensures names == old(names) + Refs(e)
      decreases e
    {
      match e
      case BoolLit(_) =>
      case IntLit(_) =>
      case StrLit(_) =>
      case VarRef(name, _) => names := names + {name};
      case Not(x) => CollectRefs(x);
      case Logic(_, l, r) =>
        CollectRefs(l);
        CollectRefs(r);
      case Cmp(_, a, c, _) =>
        CollectRefs(a);
        CollectRefs(c);
    }
  }

  /** The two environments give every name in the set the same readings. */
  predicate AgreeOn(names: set<string>, v: Vars, w: Vars) {
    forall n | n in names ::
      Lookup(v.ints, n, 0) == Lookup(w.ints, n, 0) && Lookup(v.strs, n, "") == Lookup(w.strs, n, "")
  }

  /** Only the referenced variables matter. */
  lemma {:induction false} RefsDecide(e: Node, v: Vars, w: Vars)
    requires AgreeOn(Refs(e), v, w)
    ensures Eval(e, v) == Eval(e, w)
  {
    match e
    case BoolLit(_) =>
    case IntLit(_) =>
    case StrLit(_) =>
    case VarRef(_, _) =>
    case Not(x) => RefsDecide(x, v, w);
    case Logic(_, l, r) => RefsDecide(l, v, w); RefsDecide(r, v, w);
    case Cmp(_, a, c, _) => RefsDecide(a, v, w); RefsDecide(c, v, w);
  }
}

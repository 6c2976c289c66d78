/** Rule matching, the routing probe and the choice of candidate channels
    (server/internal/router/engine.go). The database is the list of rules and channels its queries
    return. */
module Routing {
  import opened Prelude
  import opened Text
  import Glob
  import opened ExprSyntax
  import opened ExprParser
  import P = ExprPrinter
  import opened LoadBalance

  datatype Rule = Rule(id: nat, priority: int, enabled: bool,
                       groups: seq<string>, models: seq<string>, minTokens: int, maxTokens: int, source: string,
                       targetModel: string, targetIds: seq<nat>, targetGroup: string)

  datatype Request = Request(group: string, model: string, tokens: int)

  /** What asking the classifier would give. */
  datatype Probe = Absent | Failed | Predicted(w: int, t: int)

  // ------------------------------------------------------------------ the rule query

  predicate Before(a: Rule, b: Rule) {
    a.priority < b.priority || (a.priority == b.priority && a.id < b.id)
  }

  /** The result of the query for enabled rules, by ascending priority and id. */
  ghost predicate IsQueryResult(table: set<Rule>, rules: seq<Rule>) {
    && (forall r :: r in rules <==> r in table && r.enabled)
    && (forall i, j | 0 <= i < j < |rules| :: Before(rules[i], rules[j]))
  }

  // ------------------------------------------------------------------ which rule matches

  ghost predicate Accepts(rule: Rule, req: Request) {
    && (rule.groups == [] || req.group in rule.groups)
    && (rule.models == [] || exists p | p in rule.models :: Glob.Matches(p, req.model))
    && (rule.minTokens <= 0 || req.tokens >= rule.minTokens)
    && (rule.maxTokens <= 0 || req.tokens <= rule.maxTokens)
  }

  method RuleMatches(rule: Rule, req: Request) returns (b: bool)
    ensures b <==>
            && (|rule.groups| == 0 || req.group in rule.groups)
            && (|rule.models| == 0 || exists p | p in rule.models :: Glob.Matches(p, req.model))
            && (rule.minTokens > 0 ==> rule.minTokens <= req.tokens)
            && (rule.maxTokens > 0 ==> req.tokens <= rule.maxTokens)
  {
    if |rule.groups| > 0 && !(req.group in rule.groups) {
      return false;
    }
    if |rule.models| > 0 {
      var any := Glob.AnyModelMatches(rule.models, req.model);
      if !any {
        return false;
      }
    }
    if rule.minTokens > 0 && req.tokens < rule.minTokens {
      return false;
    }
    if rule.maxTokens > 0 && req.tokens > rule.maxTokens {
      return false;
    }
    return true;
  }

  /** The expression's environment; the signals are missing, and so read as 0, without a prediction. */
  function EnvOf(req: Request, probe: Probe): Vars {
    var ints := map["tokens" := req.tokens];
    Vars(if probe.Predicted? then ints["w" := probe.w]["t" := probe.t] else ints,
         map["group" := req.group, "model" := req.model])
  }

  /** The expression gate: open without an expression, shut when it does not compile. */
  predicate GateOpen(rule: Rule, env: Vars) {
    Blank(rule.source) || (CompileSpec(rule.source).Ok? && EvalProgram(CompileSpec(rule.source).value, env))
  }

  ghost predicate Eligible(rule: Rule, req: Request, env: Vars) { Accepts(rule, req) && GateOpen(rule, env) }

  /** The compiled expressions, None where compilation failed. */
  ghost predicate Compiled(rules: seq<Rule>, progs: seq<Option<Program>>) {
    && |progs| == |rules|
    && forall i | 0 <= i < |rules| ::
         progs[i] == if CompileSpec(rules[i].source).Ok? then Some(CompileSpec(rules[i].source).value) else None
  }

  /** The first-match scan. */
  method MatchRuleExpr(rules: seq<Rule>, progs: seq<Option<Program>>, req: Request, env: Vars)
    returns (matched: Option<nat>)
    requires Compiled(rules, progs)
    ensures matched.None? ==> forall i | 0 <= i < |rules| :: !Eligible(rules[i], req, env)
    ensures matched.Some? ==>
              && matched.value < |rules| && Eligible(rules[matched.value], req, env)
              && forall i | 0 <= i < matched.value :: !Eligible(rules[i], req, env)
  {
    for i := 0 to |rules|
      invariant forall k | 0 <= k < i :: !Eligible(rules[k], req, env)
    {
      var accepts := RuleMatches(rules[i], req);
      if !accepts {
        continue;
      }
      if !Blank(rules[i].source) {
        if progs[i].None? || !EvalProgram(progs[i].value, env) {
          continue;
        }
      }
      return Some(i);
    }
    return None;
  }

  /** Some enabled rule's compiled expression reads a probe signal. */
  predicate NeedsProbe(rules: seq<Rule>) {
    exists r | r in rules ::
      var p := CompileSpec(r.source);
      p.Ok? && ("w" in p.value.refs || "t" in p.value.refs)
  }

  method CompileAll(rules: seq<Rule>) returns (progs: seq<Option<Program>>, needProbe: bool)
    ensures Compiled(rules, progs) && (needProbe <==> NeedsProbe(rules))
    ensures needProbe <==> exists r | r in rules ::
              && CompileSpec(r.source).Ok?
              && ("w" in CompileSpec(r.source).value.refs || "t" in CompileSpec(r.source).value.refs)
    ensures needProbe <==> exists r | r in rules ::
              && CompileSpec(r.source).Ok?
              && ("w" in CompileSpec(r.source).value.refs || "t" in CompileSpec(r.source).value.refs)
  {
    progs, needProbe := [], false;
    for i := 0 to |rules|
      invariant Compiled(rules[..i], progs)
      invariant needProbe <==> NeedsProbe(rules[..i])
    {
      assert rules[..i + 1] == rules[..i] + [rules[i]];
      var p := Compile(rules[i].source);
      if p.Err? {
        progs := progs + [None];
        continue;
      }
      progs := progs + [Some(p.value)];
      if "w" in p.value.refs || "t" in p.value.refs {
        needProbe := true;
      }
    }
    assert rules[..|rules|] == rules;
  }

  // ------------------------------------------------------------------ which channels may serve

  predicate Serves(ch: Channel, model: string) { model in ch.models || model in ch.mapping }

  /** The rule names its targets, by ids or by a group. */
  predicate Pins(rule: Option<Rule>) {
    rule.Some? && (rule.value.targetIds != [] || Trim(rule.value.targetGroup) != "")
  }

  /** An enabled channel is a candidate if the rule's ids name it, else if it is in the rule's group,
      else, with no target named, if it serves the model. */
  predicate IsCandidate(rule: Option<Rule>, model: string, ch: Channel) {
    && ch.enabled
    && if Pins(rule) then
         if rule.value.targetIds != [] then ch.id in rule.value.targetIds
         else ch.group == Trim(rule.value.targetGroup)
       else Serves(ch, model)
  }

  function CandidatesOf(channels: seq<Channel>, rule: Option<Rule>, model: string): seq<Channel> {
    if channels == [] then []
    else
      var last := channels[|channels| - 1];
      CandidatesOf(channels[..|channels| - 1], rule, model) + if IsCandidate(rule, model, last) then [last] else []
  }

  /** The candidates are exactly the channels that qualify, each as often as it is stored. */
  lemma {:induction false} CandidatesExact(channels: seq<Channel>, rule: Option<Rule>, model: string)
    ensures forall ch ::
              multiset(CandidatesOf(channels, rule, model))[ch]
              == if IsCandidate(rule, model, ch) then multiset(channels)[ch] else 0
  {
    if channels != [] {
      CandidatesExact(channels[..|channels| - 1], rule, model);
      assert channels == channels[..|channels| - 1] + [channels[|channels| - 1]];
    }
  }

  method CandidateChannels(channels: seq<Channel>, rule: Option<Rule>, model: string) returns (out: seq<Channel>)
    ensures out == CandidatesOf(channels, rule, model)
  {
    var allowIds: Option<set<nat>> := None;
    var allowGroup := "";
    if rule.Some? {
      if |rule.value.targetIds| > 0 {
        allowIds := Some(set id | id in rule.value.targetIds);
      }
      allowGroup := Trim(rule.value.targetGroup);
    }
    var targetsPinned := allowIds.Some? || allowGroup != "";
    out := [];
    for i := 0 to |channels|
      invariant out == CandidatesOf(channels[..i], rule, model)
    {
      assert channels[..i + 1][..i] == channels[..i];
      var ch := channels[i];
      if !ch.enabled {
        continue;
      }
      if rule.Some? {
        if allowIds.Some? {
          if ch.id !in allowIds.value {
            continue;
          }
        } else if allowGroup != "" && ch.group != allowGroup {
          continue;
        }
      }
      if !targetsPinned && !Serves(ch, model) {
        continue;
      }
      out := out + [ch];
    }
    assert channels[..|channels|] == channels;
  }

  // ------------------------------------------------------------------ the whole decision

  function EffectiveModel(rule: Option<Rule>, requested: string): string {
    if rule.Some? && Trim(rule.value.targetModel) != "" then Trim(rule.value.targetModel) else requested
  }

  datatype Decision = Decision(rule: Option<Rule>, model: string, candidates: seq<Channel>)

  /** No channel can serve: the rule that decided it, if one did. */
  datatype RouteError = NoCandidate(rule: Option<Rule>)

  type Routed = Result<Decision, RouteError>

  /** The rule of the table that decides a request: the first eligible one in (priority, id) order. */
  ghost predicate Decides(table: set<Rule>, req: Request, env: Vars, rule: Option<Rule>) {
    match rule
    case None => forall r | r in table && r.enabled :: !Eligible(r, req, env)
    case Some(r) =>
      && r in table && r.enabled && Eligible(r, req, env)
      && forall s | s in table && s.enabled && Eligible(s, req, env) && s != r :: Before(r, s)
  }

  /** The decision allowed by a deciding rule: an error exactly when no channel qualifies under it,
      else the qualifying channels by descending priority. */
  ghost predicate Allows(channels: seq<Channel>, req: Request, rule: Option<Rule>, routed: Routed) {
    var model := EffectiveModel(rule, req.model);
    match routed
    case Err(NoCandidate(r)) => r == rule && forall ch | ch in channels :: !IsCandidate(rule, model, ch)
    case Ok(d) =>
      && d.rule == rule && d.model == model && d.candidates != []
      && (forall ch :: multiset(d.candidates)[ch] == if IsCandidate(rule, model, ch) then multiset(channels)[ch] else 0)
      && Descending(d.candidates)
  }

  /** The pipeline. The probe is asked at most once, and only if some expression reads its signals.
      `rolls` are the results of randIntn when a list of candidates is ordered. */
  method SelectChannel(ghost table: set<Rule>, rules: seq<Rule>, channels: seq<Channel>, req: Request, probe: Probe,
                       rolls: seq<Channel> -> map<int, seq<nat>>)
    returns (routed: Routed, asked: bool, ghost prios: seq<int>)
    requires IsQueryResult(table, rules)
    requires forall cs :: BucketDraws(cs, rolls(cs))
    ensures asked <==> NeedsProbe(rules) && probe != Absent
    ensures exists rule ::
              && Decides(table, req, EnvOf(req, if asked then probe else Absent), rule)
              && Allows(channels, req, rule, routed)
    ensures routed.Ok? ==>
              var pool := CandidatesOf(channels, routed.value.rule, routed.value.model);
              Drawn(pool, rolls(pool), prios, routed.value.candidates)
  {
    hide Accepts, GateOpen, NeedsProbe, IsQueryResult, Decides, Allows, Drawn, BucketDraws;
    prios := [];
    var progs, needProbe := CompileAll(rules);
    var env := EnvOf(req, Absent);
    asked := false;
    if needProbe {
      if probe != Absent {
        asked := true;
        if probe.Predicted? {
          env := EnvOf(req, probe);
        }
      }
    }
    assert env == EnvOf(req, if asked then probe else Absent);
    var at := MatchRuleExpr(rules, progs, req, env);
    var matched: Option<Rule> := None;
    if at.Some? {
      matched := Some(rules[at.value]);
    }
    FirstDecides(table, rules, req, env, at);
    var effective := req.model;
    if matched.Some? {
      var target := Trim(matched.value.targetModel);
      if target != "" {
        effective := target;
      }
    }
    var candidates := CandidateChannels(channels, matched, effective);
    if |candidates| == 0 {
      routed := Err(NoCandidate(matched));
      NothingQualifies(channels, req, matched);
      return;
    }
    var ordered;
    ordered, prios := LoadBalanceOrder(candidates, rolls(candidates));
    routed := Ok(Decision(matched, effective, ordered));
    QualifyInOrder(channels, req, matched, ordered);
  }

  lemma FirstDecides(table: set<Rule>, rules: seq<Rule>, req: Request, env: Vars, at: Option<nat>)
    requires IsQueryResult(table, rules)
    requires at.None? ==> forall i | 0 <= i < |rules| :: !Eligible(rules[i], req, env)
    requires at.Some? ==>
               && at.value < |rules| && Eligible(rules[at.value], req, env)
               && forall i | 0 <= i < at.value :: !Eligible(rules[i], req, env)
    ensures Decides(table, req, env, if at.Some? then Some(rules[at.value]) else None)
  {
    hide Eligible, Before;
    if at.Some? {
      assert rules[at.value] in rules;
    }
    forall r | r in table && r.enabled && Eligible(r, req, env)
      ensures at.Some? && (r != rules[at.value] ==> Before(rules[at.value], r))
    {
      assert r in rules;
      var i :| 0 <= i < |rules| && rules[i] == r;
      assert Eligible(rules[i], req, env);
    }
  }

  lemma NothingQualifies(channels: seq<Channel>, req: Request, rule: Option<Rule>)
    requires CandidatesOf(channels, rule, EffectiveModel(rule, req.model)) == []
    ensures Allows(channels, req, rule, Err(NoCandidate(rule)))
  {
    hide IsCandidate, CandidatesOf;
    var model := EffectiveModel(rule, req.model);
    CandidatesExact(channels, rule, model);
    forall ch | ch in channels ensures !IsCandidate(rule, model, ch) {
      assert multiset(channels)[ch] > 0;
      assert multiset(CandidatesOf(channels, rule, model))[ch] == 0;
    }
  }

  lemma QualifyInOrder(channels: seq<Channel>, req: Request, rule: Option<Rule>, ordered: seq<Channel>)
    requires ordered != [] && Descending(ordered)
    requires multiset(ordered) == multiset(CandidatesOf(channels, rule, EffectiveModel(rule, req.model)))
    ensures Allows(channels, req, rule, Ok(Decision(rule, EffectiveModel(rule, req.model), ordered)))
  {
    hide IsCandidate, CandidatesOf, Descending, EffectiveModel;
    CandidatesExact(channels, rule, EffectiveModel(rule, req.model));
  }

  // ------------------------------------------------------------------ what the decision depends on

  /** Priorities and ids order the rules totally, so at most one rule decides. */
  lemma DeciderIsUnique(table: set<Rule>, req: Request, env: Vars, a: Option<Rule>, b: Option<Rule>)
    requires Decides(table, req, env, a) && Decides(table, req, env, b)
    ensures a == b
  {
    hide Eligible, Before;
    if a.Some? && b.Some? {
      BeforeIsOneWay(a.value, b.value);
    }
  }

  lemma BeforeIsOneWay(a: Rule, b: Rule)
    ensures !(Before(a, b) && Before(b, a))
  {
  }

  /** Without a reference to w or t, a gate is the same whatever the probe says. */
  lemma GateIgnoresProbe(rule: Rule, req: Request, p: Probe, q: Probe)
    requires CompileSpec(rule.source).Ok? ==>
               "w" !in CompileSpec(rule.source).value.refs && "t" !in CompileSpec(rule.source).value.refs
    ensures GateOpen(rule, EnvOf(req, p)) == GateOpen(rule, EnvOf(req, q))
  {
    hide CompileSpec, EvalProgram;
    if CompileSpec(rule.source).Ok? {
      CompiledIsTyped(rule.source, EnvOf(req, p), EnvOf(req, q));
    }
  }

  /** When no enabled rule's compiled expression reads w or t, the deciding rule does not depend on
      the probe: whether it is there, fails or what it predicts. */
  lemma ProbeIsIrrelevant(table: set<Rule>, rules: seq<Rule>, req: Request, p: Probe, q: Probe, rule: Option<Rule>)
    requires IsQueryResult(table, rules) && !NeedsProbe(rules)
    ensures Decides(table, req, EnvOf(req, p), rule) <==> Decides(table, req, EnvOf(req, q), rule)
  {
    hide CompileSpec, GateOpen, Accepts, EnvOf;
    forall r | r in table && r.enabled ensures Eligible(r, req, EnvOf(req, p)) == Eligible(r, req, EnvOf(req, q)) {
      assert r in rules;
      GateIgnoresProbe(r, req, p, q);
    }
  }

  /** A failing probe and a missing one are the same as a prediction of zero for both signals. */
  lemma NoPredictionIsZero(table: set<Rule>, req: Request, p: Probe, rule: Option<Rule>)
    requires !p.Predicted?
    ensures Decides(table, req, EnvOf(req, p), rule) <==> Decides(table, req, EnvOf(req, Predicted(0, 0)), rule)
  {
    hide CompileSpec, Accepts, EvalProgram;
    var e, f := EnvOf(req, p), EnvOf(req, Predicted(0, 0));
    forall r: Rule ensures Eligible(r, req, e) == Eligible(r, req, f) {
      if CompileSpec(r.source).Ok? {
        CompiledIsTyped(r.source, e, f);
      }
    }
  }

  /** A rule decides even when no channel qualifies under it: a later rule that would have
      candidates does not get its turn. */
  lemma NoBacktracking(table: set<Rule>, channels: seq<Channel>, req: Request, env: Vars, rule: Rule, routed: Routed)
    requires Decides(table, req, env, Some(rule)) && Allows(channels, req, Some(rule), routed)
    ensures routed.Err? <==>
            forall ch | ch in channels :: !IsCandidate(Some(rule), EffectiveModel(Some(rule), req.model), ch)
    ensures routed.Ok? ==> routed.value.rule == Some(rule)
  {
    hide IsCandidate, Decides;
    if routed.Ok? {
      var d := routed.value;
      var ch := d.candidates[0];
      assert multiset(d.candidates)[ch] > 0;
      assert ch in multiset(channels);
    }
  }

  // ------------------------------------------------------------------ the decision in plain terms

  /** A channel qualifies if it is enabled and is one of the rule's target ids; without such ids, if it
      is in the rule's target group; without one, or without a rule, if it lists or maps the model. */
  lemma CandidateMeaning(channels: seq<Channel>, rule: Option<Rule>, model: string, ch: Channel)
    ensures multiset(CandidatesOf(channels, rule, model))[ch] ==
            if !ch.enabled then 0
            else if rule.Some? && rule.value.targetIds != [] then
              if ch.id in rule.value.targetIds then multiset(channels)[ch] else 0
            else if rule.Some? && !Blank(rule.value.targetGroup) then
              if ch.group == Trim(rule.value.targetGroup) then multiset(channels)[ch] else 0
            else if model in ch.models || model in ch.mapping then multiset(channels)[ch] else 0
  {
    hide Trim, Blank, CandidatesOf;
    CandidatesExact(channels, rule, model);
    if rule.Some? {
      TrimBlank(rule.value.targetGroup);
    }
  }

  /** No rule that could have decided has a smaller priority, or the same one and a smaller id. */
  lemma DeciderComesFirst(table: set<Rule>, req: Request, env: Vars, rule: Rule, other: Rule)
    requires Decides(table, req, env, Some(rule))
    requires other in table && other.enabled && Eligible(other, req, env)
    ensures rule.priority <= other.priority && (rule.priority == other.priority ==> rule.id <= other.id)
  {
    hide Eligible;
  }

  /** The model routed for is the rule's target model, trimmed, unless that is blank. */
  lemma TargetReplacesModel(channels: seq<Channel>, req: Request, rule: Option<Rule>, routed: Routed)
    requires Allows(channels, req, rule, routed) && routed.Ok?
    ensures routed.value.model ==
            if rule.Some? && !Blank(rule.value.targetModel) then Trim(rule.value.targetModel) else req.model
  {
    hide Trim, Blank, IsCandidate, Descending;
    if rule.Some? {
      TrimBlank(rule.value.targetModel);
    }
  }

  /** A rule without an expression is not held back by it; one whose expression does not compile never
      matches. */
  lemma GateWithoutProgram(rule: Rule, req: Request, env: Vars)
    ensures Blank(rule.source) ==> (Eligible(rule, req, env) <==> Accepts(rule, req))
    ensures !Blank(rule.source) && CompileSpec(rule.source).Err? ==> !Eligible(rule, req, env)
  {
    hide Blank, CompileSpec, Accepts, EvalProgram;
  }

  lemma GateHolds(rule: Rule, env: Vars, b: bool)
    requires P.HoldsIff(rule.source, env, b) && rule.source != "" && !IsWhite(rule.source[0])
    ensures GateOpen(rule, env) <==> b
  {
    hide CompileSpec, EvalProgram;
    assert rule.source[0] in rule.source;
  }

  /** What an expression reads: tokens is the request's count. */
  lemma TokensGate(rule: Rule, req: Request, probe: Probe, n: nat)
    requires n <= MAX_INT64
    ensures rule.source == "tokens > " + P.Decimal(n) ==> (GateOpen(rule, EnvOf(req, probe)) <==> req.tokens > n)
    ensures rule.source == "tokens <= " + P.Decimal(n) ==> (GateOpen(rule, EnvOf(req, probe)) <==> req.tokens <= n)
  {
    hide P.HoldsIff, GateOpen;
    var env := EnvOf(req, probe);
    P.NumberComparison("tokens", n, env);
    assert "tokens" + " > " + P.Decimal(n) == "tokens > " + P.Decimal(n);
    assert "tokens" + " <= " + P.Decimal(n) == "tokens <= " + P.Decimal(n);
    if rule.source == "tokens > " + P.Decimal(n) {
      GateHolds(rule, env, req.tokens > n);
    } else if rule.source == "tokens <= " + P.Decimal(n) {
      GateHolds(rule, env, req.tokens <= n);
    }
  }

  /** w and t are the prediction's, or 0 without one. */
  lemma ProbeGate(rule: Rule, req: Request, probe: Probe, n: nat)
    requires n <= MAX_INT64
    ensures rule.source == "w > " + P.Decimal(n) ==>
              (GateOpen(rule, EnvOf(req, probe)) <==> probe.Predicted? && probe.w > n)
    ensures rule.source == "t > " + P.Decimal(n) ==>
              (GateOpen(rule, EnvOf(req, probe)) <==> probe.Predicted? && probe.t > n)
  {
    hide P.HoldsIff, GateOpen;
    var env := EnvOf(req, probe);
    P.NumberComparison("w", n, env);
    P.NumberComparison("t", n, env);
    assert "w" + " > " + P.Decimal(n) == "w > " + P.Decimal(n) && "t" + " > " + P.Decimal(n) == "t > " + P.Decimal(n);
    if rule.source == "w > " + P.Decimal(n) {
      GateHolds(rule, env, probe.Predicted? && probe.w > n);
    } else if rule.source == "t > " + P.Decimal(n) {
      GateHolds(rule, env, probe.Predicted? && probe.t > n);
    }
  }

  /** group and model are the request's. */
  lemma NameGate(rule: Rule, req: Request, probe: Probe, s: string)
    ensures rule.source == "group == \"" + P.Escape(s) + "\"" ==>
              (GateOpen(rule, EnvOf(req, probe)) <==> req.group == s)
    ensures rule.source == "model == \"" + P.Escape(s) + "\"" ==>
              (GateOpen(rule, EnvOf(req, probe)) <==> req.model == s)
  {
    hide P.HoldsIff, GateOpen, P.Escape, Precedes;
    var env, text := EnvOf(req, probe), "\"" + P.Escape(s) + "\"";
    P.StringComparison("group", s, env);
    P.StringComparison("model", s, env);
    assert "group" + " == " + text == "group == \"" + P.Escape(s) + "\"";
    assert "model" + " == " + text == "model == \"" + P.Escape(s) + "\"";
    if rule.source == "group == \"" + P.Escape(s) + "\"" {
      GateHolds(rule, env, req.group == s);
    } else if rule.source == "model == \"" + P.Escape(s) + "\"" {
      GateHolds(rule, env, req.model == s);
    }
  }
}

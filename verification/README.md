# Verification of the LLM gateway's core

A Dafny model of the parts of the gateway that hold real state, branching or arithmetic, with proofs
about every input, every run and every interleaving. Code that works by changing things step by step
is modelled by classes and methods with loops, each tied to a specification function or a relation;
the theorems are lemmas about those. `dafny verify dfyconfig.toml` checks everything.

| file | subject |
|---|---|
| `QuotaSystem`, `QuotaTheorems`, `QuotaResets`, `QuotaService` | The quota write-back cache: a step system of requests, one flusher, failures, Redis wipes at any time and resets in their three operations; what holds in every run; resets against everything else; the service's methods, which keep a log that is a run of that system. |
| `ExprSyntax`, `ExprLexer`, `ExprParser`, `ExprPrinter` | The rule expression language: evaluator, typing, lexer, recursive-descent parser against a declarative grammar, minimal printer. |
| `Glob`, `Routing`, `LoadBalance` | Glob matching, rule selection, the probe, candidate channels, the weighted order and the failover cursor. |
| `EventStream`, `StreamChunks`, `AnthropicStream`, `BedrockStream`, `StreamPump` | The AWS event-stream codec, the Bedrock stream parser, the two stateful renderings and the pump that drives them. |
| `Converse` | Translation of a request to Bedrock Converse. |
| `Usage`, `Relay` | Usage merging, cost, the failover loops and the accounting of a request. |
| `SseClient` | The browser's incremental consumer of a streamed answer. |
| `Prelude`, `Text` | Shared datatypes, slices, trimming. |

Outside the model, as parameters or nondeterministic choices: each Redis and database operation
succeeds or fails at will; the results of randIntn are a parameter and map iteration order is
arbitrary; the classifier is absent, fails, or predicts any pair; what an upstream does to an attempt
is any outcome; JSON encoding and decoding, image fetching and CRC32 are arbitrary functions, with the
one law (unmarshalling reads back what was marshalled) that the round trips need.

## What the code does where its comments or its promises say more

- A user INCRBY that fails after the token INCRBY leaves the token's increment with nothing that
  would flush it (quota_service.go:145-152). `QuotaTheorems.LeakHappens` is such a run from any cold
  start, `LeakExactly` says exactly when it happens, and `DriftIsCovered` is proved for all runs that
  do not end with such a step, or with half a reset, still to be made up for. A reset whose DEL fails
  (quota_service.go:182-187) can leave the user's counter the same way, for good:
  `QuotaResets.ResetLeaksExactly`, `LeakLasts`, `ResetLeakHappens`.
- A reset is meant to be safe from a stale flush (quota_service.go:163-166), but its three operations
  are not one. A pass that held the old counter when the column was zeroed writes it back, and so does
  one that reads it between the UPDATE and the DEL; a load that read the row before the UPDATE seeds
  Redis with it after the DEL. `QuotaResets.ResetSurvivesExactly`, `HeldValueUndoes`,
  `ReadBetweenUndoes`, `LoadUndoes`.
- After a wipe of Redis the counters are said to be rebuilt so that usage is never lost
  (quota_service.go:43-47). `QuotaTheorems.RunAccounts` gives the exact account of every run: a wipe
  loses what had not been flushed, and a call or flush that goes on with a value read before it can
  bring usage back or push it out again; `UnracedRunAccounts` is the account without such races.
- The running total of a stream's usage is not recomputed once it is non-zero, so it can disagree
  with the counts it is the total of (stream.go:849-851): `UsageAccounting.TotalIsSumExactly` gives
  the condition on the events, `TotalCanGoStale` three events that break it. Bills do not depend on it: `BillOfStream`.
- A request whose history keeps a tool result but no named tool use is sent without the toolConfig
  that Bedrock demands (transform.go:1064-1080): `Converse.ConfigMissingExactly`,
  `ToolContentWithoutConfig`.
- In Anthropic output, a chunk with both text and a tool delta loses its text
  (`AnthropicStream.TextLostExactly`, `TextCanBeLost`), and text after a tool call opens a second
  block (`OneBlockAtATime`, `BlocksCanOverlap`).
- Bedrock output loses every tool call while its stop reason may still say tool_use (stream.go:638-647):
  `BedrockStream.ToolCallsAreLost`, `ToolCallCanBeLost`.
- A Bedrock exception event is documented as fatal, but one with a blank body is dropped
  (bedrock_adapter.go:460-463): `StreamChunks.FatalExactly`, `BlankExceptionIsIgnored`.
- The comment at bedrock_adapter.go:594-596 has a validation exception reported with 500; the code
  reports it with 400: `StreamChunks.ExceptionMeaning`.
- The prompt estimate is meant to keep consumption from under-counting (usage.go:5-10). A stream is
  billed with it (`Relay.StreamLoggedCost`); an answer without streaming is logged with it and billed
  without (relay.go:347-349): `Relay.LoggedCostExactly`, `LoggedCostCanBeLow`.
- The failover loop goes on from a parse error that is no upstream error (relay.go:321-330), but no
  adapter returns one: an unreadable success body is an upstream error with status 0, which is not
  retryable, so it ends the request with 502.
- The comment at relay.go:293-295 says a missing price is rejected; the code serves an unpriced model
  for free (relay.go:181-191). The model follows the code: `Relay.FreeExactly`, `StreamFreeExactly`.
- The browser consumer's result is independent of chunking for every text, also with consecutive
  carriage returns: normalising a buffer twice can only strip more CRs from line ends, which trimming
  ignores.

## Model

| member | source | states |
|---|---|---|
| QuotaSystem.GuardMeaning | server/internal/service/quota_service.go:263-289 | The headroom the middleware tests is 0 exactly when the key or the user has a bounded quota that is used up. |
| QuotaSystem.HeadroomMeaning | server/internal/service/quota_service.go:260-289 | The smaller of what is left at the levels with a bound, -1 exactly if neither has one; a positive estimate is within it, or it is unlimited, exactly if used + estimate <= quota at every bounded level. |
| QuotaSystem.StepKeepsInv | server/internal/service/quota_service.go:121-399 | Every step of every interleaving - arrival, guard, gate, load, increment, mark, flush read or write, any failure, a wipe at any time, each of the three operations of a reset on its own - keeps the invariant: drift covered unless a leaking step is not made up for, and, for counters no wipe or reset has raced, counters never behind columns, held values in range, calls' local views valid. |
| QuotaSystem.RunKeepsInv | server/internal/service/quota_service.go:121-399 | Every run from a state with the invariant ends in one. |
| QuotaTheorems.DriftIsCovered | server/internal/service/quota_service.go:121-196 | In every run, a Redis counter that differs from its column is dirty, held by the running pass, or inside a Consume between increment and mark - unless the last leaking step on it (a user increment failing, or a reset zeroing its column or forgetting its mark) has not been made up for, or a wipe or reset raced it. |
| QuotaTheorems.HistoryIsExact | server/internal/service/quota_service.go:121-188 | The two history fields of the state say exactly which counters were left leaking and which were raced, in terms of the events of the run. |
| QuotaTheorems.LeakExactly | server/internal/service/quota_service.go:145-152 | The failing user increment breaks coverage if and only if the token had drifted and neither the dirty set, the pass nor another Consume covers it. |
| QuotaTheorems.LeakHappens | server/internal/service/quota_service.go:136-152 | From any cold start with both rows there is a run that ends idle with a drifted, uncovered token counter. |
| QuotaTheorems.ColdLoad | server/internal/service/quota_service.go:235-258 | Loading an absent counter takes four steps and leaves it seeded from its column and the call where the value read sends it, which for a check may be its end. |
| QuotaTheorems.NothingIsLost | server/internal/service/quota_service.go:121-154 | In every run without wipes and resets, each counter is its initial column plus the amounts of all its increments in the run, and the column has moved up from there without passing the counter. |
| QuotaTheorems.RunAccounts | server/internal/service/quota_service.go:121-258 | Over every run from every state, with failures, wipes and resets anywhere and racing anything, a counter has grown by exactly its increments and what was brought back, less what was forgotten. |
| QuotaTheorems.UnracedRunAccounts | server/internal/service/quota_service.go:121-258 | In a run from a fresh instance that never raced the counter, nothing is brought back: the counter is its initial column plus the increments, less what each wipe found unflushed and each reset erased, both non-negative, and the column has not passed it. |
| QuotaTheorems.StepAccounts | server/internal/service/quota_service.go:121-258 | No step changes a counter's value in any other way than by its own increment, a stale value it brings back and what a wipe or reset makes forget. |
| QuotaTheorems.ColumnNeverDecreases | server/internal/service/quota_service.go:325-385 | No step other than the UPDATE of a reset lowers the column of a counter that no wipe or reset has raced. |
| QuotaTheorems.CleanPassSynchronises | server/internal/service/quota_service.go:325-385 | A pass that ends without an error while no Consume runs leaves every counter equal to its column, in whatever order ids were flushed and however many requests arrive, check, pass the gate, are served and leave meanwhile; counters that were there keep their values; leaked and raced counters are the only exceptions. |
| QuotaTheorems.OverspendIsBounded | server/internal/middleware/quota.go:33-44 | In every run in which requests consume only after the guard, a counter with quota q >= 0 that no wipe or reset has raced never exceeds max(initial, q - 1 + n * most), for at most n requests of that key or user in flight, each one call from its guard through any number of gate checks to its charge, and at most `most` each. |
| QuotaResets.ResetLeaksExactly | server/internal/service/quota_service.go:167-188 | After the UPDATE, anything else but quota calls of this user, and the forgetting of the mark, the user's counter is drifted and uncovered if and only if its key is still there, holds another value than the last one written to the column (0 if none was), and no running pass still has the id. |
| QuotaResets.LeakLasts | server/internal/service/quota_service.go:167-188 | It stays drifted and uncovered through everything else the system does, until a quota call of this user, a DEL or a wipe. |
| QuotaResets.ResetLeakHappens | server/internal/service/quota_service.go:167-188 | From any cold start there is a run, the DEL failing, that ends idle that way. |
| QuotaResets.ResetSurvivesExactly | server/internal/service/quota_service.go:167-188 | UPDATE, events, forgetting, events, DEL, events, with nothing held of the user at the end and no quota call of the user meanwhile: the column is what was last written since the UPDATE, every value written was held at the UPDATE or read before the DEL, and, unless the counter had been raced before, the column is 0 if and only if no value other than 0 was written. |
| QuotaResets.RunFollows | server/internal/service/quota_service.go:344-383 | While no quota call of the user is under way the column changes only by a pass writing a value that it held at the start or read from the key, which keeps its value until it goes. |
| QuotaResets.HeldValueUndoes | server/internal/service/quota_service.go:167-188 | From any cold start there is a run in which a pass reads the counter, a reset is performed, and the pass writes: the old usage is back with nothing left to correct it. |
| QuotaResets.ReadBetweenUndoes | server/internal/service/quota_service.go:167-188 | And one in which nothing is held when the reset begins: the pass reads and writes between its UPDATE and its DEL. |
| QuotaResets.LoadUndoes | server/internal/service/quota_service.go:167-258 | And one in which a check that read the row before the UPDATE seeds the counter with the old usage after the DEL. |
| QuotaService.QuotaService.constructor | server/internal/service/quota_service.go:65-73 | A fresh service is an initial state of the step system, with an empty log. |
| QuotaService.QuotaService.CheckRemaining | server/internal/service/quota_service.go:88-102 | A run of the system; the result is -1 exactly if both quotas are unlimited, else the least of max(0, quota - used) over the bounded levels, by the live counters it leaves behind; no counter changes; the call ends if an operation fails or its guard or gate rejects that headroom, and is served otherwise. |
| QuotaService.QuotaService.Admit | server/internal/middleware/quota.go:33-44 | A run of the system; the request is served from now on exactly if the check succeeds and at no bounded level the quota is used up. |
| QuotaService.QuotaService.GateBalance | server/internal/relay/relay.go:193-208 | A run of the system; a served request stays served exactly if the check succeeds and a positive estimate has used + estimate <= quota at every bounded level, and ends otherwise. |
| QuotaService.QuotaService.QuotaAndUsed | server/internal/service/quota_service.go:201-230 | A run of the system that at most seeds this one counter, with the value of its column, and returns the counter's live value. |
| QuotaService.QuotaService.UsedCounter | server/internal/service/quota_service.go:235-258 | The same for the part after the row has been read, including every point at which Redis can fail. |
| QuotaService.QuotaService.Consume | server/internal/service/quota_service.go:121-154 | Entered by a request the guard has let in, or by a caller that asked no guard; a run of the system; on success exactly the two counters have grown by the amount and both are dirty; on failure no counter changed except possibly the token's, then by the amount and recorded as leaked; a non-positive amount changes nothing. |
| QuotaService.QuotaService.PassGates | server/internal/relay/relay.go:265-300 | Any number of gate checks, one before each attempt, stopping at the first that does not pass; no counter changes. |
| QuotaService.QuotaService.ServeRequest | server/internal/relay/relay.go:505-507 | One request through guard, gates and charge: a run in which it is charged through the guard only and at most its cost; its two counters grow by the cost exactly as Consume says, or not at all when it is turned away or free. |
| QuotaService.QuotaService.OverspendWithinCap | server/internal/middleware/quota.go:33-44 | As long as nothing was charged without the guard, each counter of the service stays within max(initial, q - 1 + n * cap), the cap being the largest charge so far. |
| QuotaService.QuotaService.MarkDirty | server/internal/service/quota_service.go:191-196 | Both ids join the dirty sets and the call ends. |
| QuotaService.QuotaService.ResetUserUsage | server/internal/service/quota_service.go:167-188 | A run of the system, from any state and also without a row; success zeroes the column, forgets the mark and deletes the key of this user and of nobody else; a failed update changes nothing, a failed DEL leaves the counter and records it as leaked; nothing is raced unless a call or flush was under way. |
| QuotaService.QuotaService.TakeSnapshot | server/internal/service/quota_service.go:330-341 | The pass gets exactly the dirty ids, in some order, and nothing stays dirty. |
| QuotaService.QuotaService.FlushOne | server/internal/service/quota_service.go:344-362 | One id's flush: a failure leaves the columns alone and marks the id again; success makes its column the counter, or does nothing if the key is gone. |
| QuotaService.QuotaService.Requeue | server/internal/service/quota_service.go:387-399 | Exactly this id becomes dirty. |
| QuotaService.QuotaService.WriteBack | server/internal/service/quota_service.go:325-385 | A run of the system; every id that was dirty and is not requeued has its column equal to its counter, other columns are untouched, and without a failure nothing is dirty. |
| Glob.SplitMeaning | server/internal/router/engine.go:708-737 | The recursive glob definition holds exactly when the parts between the stars match in order with arbitrary gaps. |
| Glob.LeftmostIsEnough | server/internal/router/engine.go:719-734 | Middle parts can be placed if and only if, with the first at its leftmost occurrence, the others can be placed after it. |
| Glob.EndsOff | server/internal/router/engine.go:711-718 | With a star, a match is exactly: the prefix, the suffix in what follows it - so the two never share a character - and the middle parts placeable in between. |
| Glob.PlaceGreedily | server/internal/router/engine.go:719-734 | The greedy loop succeeds exactly when some placement exists. |
| Glob.WildcardMatch | server/internal/router/engine.go:708-737 | The matcher accepts exactly the strings the recursive definition accepts, for every pattern with a star. |
| Glob.ModelMatches | server/internal/router/engine.go:695-706 | With its equality shortcut and its star-less case it is still exactly the glob. |
| Glob.AnyModelMatches | server/internal/router/engine.go:683-690 | Some pattern of the list matches. |
| ExprLexer.ScanString | server/internal/router/expr/expr.go:309-330 | The string scan, with a cursor and escapes, finds exactly the specified body and length, or that no closing quote exists. |
| ExprLexer.Lex | server/internal/router/expr/expr.go:300-379 | The scanning loop yields exactly the specified tokens or the specified error, always within bounds. |
| ExprLexer.BlanksAreSkipped | server/internal/router/expr/expr.go:306-307 | Space, tab, line feed and carriage return before anything change no token. |
| ExprLexer.QuotedString | server/internal/router/expr/expr.go:314-329 | Single and double quotes alike enclose a string. |
| ExprLexer.BackslashKeepsNext | server/internal/router/expr/expr.go:314-329 | In a string a backslash goes and keeps the character after it, whatever that is. |
| ExprLexer.UnclosedString | server/internal/router/expr/expr.go:314-329 | A quote that is not closed is an error. |
| ExprLexer.DigitsAreANumber | server/internal/router/expr/expr.go:350-357 | A run of digits is that number, or the largest 64-bit one. |
| ExprLexer.LettersAreAWord | server/internal/router/expr/expr.go:358-372 | A run of letters, digits and underscores that begins with no digit is true, false or one name. |
| ExprLexer.StrayCharacter | server/internal/router/expr/expr.go:330-375 | A lone &, | or = and any character that begins no token are errors. |
| ExprParser.Parser.Or | server/internal/router/expr/expr.go:401-420 | Moves the cursor forward, in bounds, and returns what the grammar's disjunction level gives from there. |
| ExprParser.Parser.And | server/internal/router/expr/expr.go:422-439 | The same for the conjunction level. |
| ExprParser.Parser.Negation | server/internal/router/expr/expr.go:441-454 | The same for negation. |
| ExprParser.Parser.Comparison | server/internal/router/expr/expr.go:456-478 | The same for comparison, with its type checks. |
| ExprParser.Parser.Primary | server/internal/router/expr/expr.go:480-516 | The same for literals, variables and parentheses. |
| ExprParser.ParserIsGrammar | server/internal/router/expr/expr.go:7-12 | The parser accepts a token list with a tree if and only if the declarative grammar derives that tree from it. |
| ExprParser.GrammarIsUnambiguous | server/internal/router/expr/expr.go:7-12 | No token list derives two trees. |
| ExprParser.DerivedIsTyped | server/internal/router/expr/expr.go:403-516 | Every derived tree is well typed. |
| ExprParser.Compile | server/internal/router/expr/expr.go:86-109 | The method with lexer, parser object and reference set computes the specified program or error, and fails exactly when that does. |
| ExprParser.CompiledIsTyped | server/internal/router/expr/expr.go:74-109 | Whatever compiles evaluates without reaching a silent default, and two environments that agree on its references give the same verdict. |
| ExprParser.CompiledNames | server/internal/router/expr/expr.go:36-47 | Whatever compiles reads no other variables than w, t, tokens, group and model. |
| ExprSyntax.TypedEvaluation | server/internal/router/expr/expr.go:134-275 | A well-typed tree evaluates at every node to a value of its declared type, so the strict evaluator without defaults agrees with the real one. |
| ExprSyntax.IntComparisons | server/internal/router/expr/expr.go:220-237 | Of operands that evaluate to integers x and y the six operators give x == y, x != y, x < y, x <= y, x > y and x >= y. |
| ExprSyntax.StringComparisons | server/internal/router/expr/expr.go:240-256 | The same of strings, ordered by the first position at which they differ or by a proper prefix. |
| ExprSyntax.StrLessMeaning | server/internal/router/expr/expr.go:240-256 | The recursive order is that one. |
| ExprSyntax.Connectives | server/internal/router/expr/expr.go:180-205 | &&, || and ! are conjunction, disjunction and negation of what their operands evaluate to. |
| ExprSyntax.RefSet.CollectRefs | server/internal/router/expr/expr.go:141-262 | Filling the set in place adds exactly the names in the tree. |
| ExprSyntax.RefsDecide | server/internal/router/expr/expr.go:163-262 | Two environments that agree on the referenced names give a tree the same value. |
| ExprSyntax.NegatedComparison | server/internal/router/expr/expr.go:220-256 | On comparable operands each comparison is the negation of its opposite. |
| ExprPrinter.TokensDerive | server/internal/router/expr/expr.go:7-12 | The printed tokens of a well-typed tree derive that tree, at every precedence level. |
| ExprPrinter.PrinterIsMinimal | server/internal/router/expr/expr.go:7-12 | No token list from which the grammar derives the same tree at the same level is shorter than the printed one. |
| ExprPrinter.EscapeRoundTrip | server/internal/router/expr/expr.go:309-330 | Scanning an escaped string gives the string back. |
| ExprPrinter.TextLexes | server/internal/router/expr/expr.go:300-379 | The printed text lexes to the printed tokens. |
| ExprPrinter.CompilePrintRoundTrip | server/internal/router/expr/expr.go:86-109 | For every well-typed condition, compiling its minimally parenthesised text gives that very tree and its references. |
| ExprPrinter.Constants | server/internal/router/expr/expr.go:86-109 | true and false mean themselves. |
| ExprPrinter.NumberComparison | server/internal/router/expr/expr.go:86-109 | The source text of a numeric variable, one of the six operators and a number compiles to a program that holds exactly if the variable, 0 if missing, compares so with the number. |
| ExprPrinter.StringComparison | server/internal/router/expr/expr.go:86-109 | The same of group or model and a quoted string. |
| ExprPrinter.JoinedConditions | server/internal/router/expr/expr.go:86-109 | Joining two conditions by && or || or negating one, with parentheses where they have to be, gives a program that holds accordingly. |
| ExprPrinter.Precedence | server/internal/router/expr/expr.go:7-12 | Source texts without parentheses: comparisons bind more tightly than !, that more than &&, and that more than ||. |
| Routing.RuleMatches | server/internal/router/engine.go:472-492 | True exactly if the group is listed, some model pattern matches, and the tokens are neither below the minimum nor above the maximum, an empty list or a non-positive bound being unconstrained. |
| Routing.MatchRuleExpr | server/internal/router/engine.go:452-469 | The index found is eligible and no earlier one is; none is found only if no rule is eligible. |
| Routing.CompileAll | server/internal/router/engine.go:310-328 | One compiled program or a hole per rule; the probe is needed exactly when some expression compiles and references w or t. |
| Routing.CandidateChannels | server/internal/router/engine.go:509-556 | The loop's filter with its two stages equals the per-channel criterion. |
| Routing.CandidatesExact | server/internal/router/engine.go:509-573 | A channel is a candidate, as often as it is stored, exactly if enabled and in the pinned ids, else in the pinned group, else serving the effective model. |
| Routing.CandidateMeaning | server/internal/router/engine.go:509-573 | The same in plain terms: enabled, and in the rule's target ids; without ids, in its target group; without one, listing or mapping the model. |
| Routing.SelectChannel | server/internal/router/engine.go:303-404 | The decision is the one of the first eligible enabled rule in (priority, id) order; its candidates are all and only the qualifying channels, by descending priority and within one in the order their draws give; an error exactly if there are none; the probe is asked exactly if needed and present. |
| Routing.DeciderIsUnique | server/internal/router/engine.go:416-424 | At most one rule, or the absence of one, can decide a request. |
| Routing.DeciderComesFirst | server/internal/router/engine.go:416-424 | No eligible rule has a smaller priority than the deciding one, or the same and a smaller id. |
| Routing.TargetReplacesModel | server/internal/router/engine.go:357-362 | The model routed for is the deciding rule's target model, trimmed, unless that is blank. |
| Routing.GateWithoutProgram | server/internal/router/engine.go:452-469 | A blank expression holds no rule back, one that does not compile holds it back always. |
| Routing.TokensGate | server/internal/router/engine.go:330-333 | A rule with the expression tokens > n, or tokens <= n, is open exactly for requests with so many tokens. |
| Routing.ProbeGate | server/internal/router/engine.go:334-352 | w and t are the prediction's own, 0 without one. |
| Routing.NameGate | server/internal/router/engine.go:330-333 | group and model are the request's. |
| Routing.ProbeIsIrrelevant | server/internal/router/engine.go:326-352 | If no enabled rule's compiled expression references w or t, the deciding rule is the same for any two behaviours of the probe. |
| Routing.NoPredictionIsZero | server/internal/router/engine.go:332-352 | A failing or missing probe decides as a prediction of 0 and 0 would. |
| Routing.NoBacktracking | server/internal/router/engine.go:374-395 | Under a deciding rule the outcome is an error exactly when no channel qualifies under that rule, whatever later rules would allow. |
| LoadBalance.TotalPositive | server/internal/router/engine.go:611-615 | The total of effective weights is at least the number of channels, so the draw is always defined. |
| LoadBalance.Pick | server/internal/router/engine.go:615-623 | The subtracting scan always stops at the channel whose stretch contains the draw; its default index never decides. |
| LoadBalance.PickIsUnique | server/internal/router/engine.go:615-623 | No draw picks two channels. |
| LoadBalance.ShareOfDraws | server/internal/router/engine.go:609-635 | Of the draws below the total, exactly as many pick a channel as its stored weight says, one if that is not positive. |
| LoadBalance.TotalIsSum | server/internal/router/engine.go:611-635 | The total drawn from is the sum of those numbers. |
| LoadBalance.WeightedShuffle | server/internal/router/engine.go:605-628 | The order is the one that weighted picking without replacement gives for randIntn's results. |
| LoadBalance.OrderPermutes | server/internal/router/engine.go:605-628 | Every such order is a permutation of the bucket. |
| LoadBalance.EveryOrderComesOut | server/internal/router/engine.go:605-635 | Every permutation comes out for some draws: no weight, not even a negative one, starves a channel. |
| LoadBalance.DrawsGivingExactly | server/internal/router/engine.go:605-628 | The set of draw sequences counted next holds exactly those for which the shuffle gives the order. |
| LoadBalance.ShareOfShuffles | server/internal/router/engine.go:605-635 | For distinct channels, exactly as many draw sequences give an order as the product of the same numbers. |
| LoadBalance.LoadBalanceOrder | server/internal/router/engine.go:579-600 | Whatever the map's iteration order, the result is determined by the draws: a permutation of the candidates by descending priority, each priority's channels in the order that weighted picking gives for its draws. |
| LoadBalance.DrawsDetermineOrder | server/internal/router/engine.go:579-600 | Two orders that meet this contract for the same draws are equal. |
| LoadBalance.Selection.Next | server/internal/router/engine.go:175-182 | The candidate at the cursor and one step on, or nothing and no step, at the end of the list or of the budget. |
| LoadBalance.CallsInOrder | server/internal/router/engine.go:175-182 | Any number of calls returns the candidates in order, each position once, exactly min(length, maxRetries) of them, and fails ever after. |
| EventStream.WriteU32 | server/internal/adapter/bedrock_eventstream.go:45-47 | Writes four big-endian bytes in place, changes nothing else. |
| EventStream.AppendStringHeader | server/internal/adapter/bedrock_eventstream.go:78-87 | Appends the wire form of one string header. |
| EventStream.EncodeBedrockFrame | server/internal/adapter/bedrock_eventstream.go:39-63 | The byte-level encoder computes the specified frame, with any checksum function. |
| EventStream.FrameLayout | server/internal/adapter/bedrock_eventstream.go:39-63 | Total length, headers length, the checksum of exactly those eight bytes, headers, payload, and the checksum of everything before it. |
| EventStream.HeaderBytes | server/internal/adapter/bedrock_eventstream.go:69-87 | The three standard headers byte by byte. |
| EventStream.BigEndian | server/internal/adapter/bedrock_eventstream.go:47-48 | Four-byte numbers are written most significant byte first. |
| EventStream.EventTypeFromHeaders | server/internal/relay/stream.go:940-994 | On arbitrary bytes the scan stays in bounds and returns the specified value, including the index running past the end after a skipped fixed-size value. |
| EventStream.HeaderRoundTrip | server/internal/relay/stream.go:940-994 | On the encoding of any well-formed header list, with headers of all ten value types, the scan finds the first string header named :event-type, or nothing. |
| EventStream.TypedIsWellFormed | server/internal/relay/stream.go:940-994 | Booleans, integers of 8, 16, 32 and 64 bits, timestamps and UUIDs in their wire widths, and blobs and strings shorter than 65536 bytes, are headers that the round trip covers. |
| EventStream.ReadEventStream | server/internal/relay/stream.go:895-930 | On arbitrary bytes the read loop stays in bounds and yields the specified events and ending; a stream cut in or right after a prelude ends cleanly. |
| EventStream.RawFrame | server/internal/relay/stream.go:895-930 | For any declared lengths and any bytes after a prelude: exactly when reading ends as malformed, out of bounds, truncated or clean, and otherwise where headers and payload are taken from and when the event is forwarded. |
| EventStream.DecodeInvertsEncode | server/internal/relay/stream.go:895-930 | Decoding the concatenated encodings of any frames whose lengths fit, followed by any bytes, gives those frames and then what the rest decodes to. |
| EventStream.PrefixIsExact | server/internal/relay/stream.go:895-930 | Cut after any number of bytes, an encoded stream yields exactly the frames wholly contained, and ends as clean if and only if at most 12 bytes of the next frame are there. |
| EventStream.MoreInputOnlyAdds | server/internal/relay/stream.go:895-930 | On arbitrary bytes, more input never retracts an event and never turns a malformed stream into another. |
| StreamChunks.BedrockTextIsMeaningful | server/internal/adapter/bedrock_adapter.go:459-582 | For typed and untyped events alike, the parser flags every chunk with text or a tool delta as meaningful and never puts both into one. |
| StreamChunks.BothShapesParse | server/internal/adapter/bedrock_adapter.go:201-251 | Tool starts, tool input and text parse to the same chunk in the nested and the flat shape, the nested one winning. |
| StreamChunks.FatalExactly | server/internal/adapter/bedrock_adapter.go:459-489 | An event is fatal if and only if its type ends in Exception and its body is not blank, whatever the body says, and then carries an error status. |
| StreamChunks.ExceptionMeaning | server/internal/adapter/bedrock_adapter.go:597-620 | throttlingException is reported with 429, the model stream, service and model timeout exceptions with 503, validationException with 400, every other with 500. |
| StreamChunks.MetadataMeaning | server/internal/adapter/bedrock_adapter.go:526-540 | Each count of a metadata event's usage, and its total or, if that is 0, the sum of input and output. |
| StreamChunks.StopWords | server/internal/adapter/transform.go:1449-1486 | The word each vocabulary has for each stop reason, and what each Bedrock word means. |
| StreamChunks.BlankExceptionIsIgnored | server/internal/adapter/bedrock_adapter.go:459-463 | A validationException without a body parses to an empty chunk. |
| StreamChunks.WrappedAsTyped | server/internal/adapter/bedrock_adapter.go:555-582 | A wrapped event without a type header parses to the same chunk as the typed event that carries the same, the first outer key deciding. |
| StreamChunks.CountMeaning | server/internal/relay/stream.go:484-511 | What the pump accumulates is the concatenated text, the last known stop reason and the fold of the usages. |
| StreamChunks.TextIsShownExactly | server/internal/relay/stream.go:494-514 | Rendered text equals accumulated text if and only if no chunk dropped as meaningless carries text. |
| AnthropicStream.EmitAgrees | server/internal/relay/stream.go:413-465 | Rendering any chunk keeps the renderer's variables in agreement with the blocks a client sees open. |
| AnthropicStream.ProtocolKept | server/internal/relay/stream.go:569-593 | For every chunk sequence and any ending, the output is accepted by the protocol automaton: every delta targets an open block of its kind, no block is left open. |
| AnthropicStream.EndedShape | server/internal/relay/stream.go:569-593 | Any accepted output has one message_start first, one message_delta then message_stop last, and for every index as many stops as starts. |
| AnthropicStream.OneBlockAtATime | server/internal/relay/stream.go:367-378 | At most one block is ever open if and only if no text arrives after a tool call has begun. |
| AnthropicStream.OneBlockToTheEnd | server/internal/relay/stream.go:569-593 | The same of the whole output, terminal framing included. |
| AnthropicStream.BlocksCanOverlap | server/internal/relay/stream.go:450-457 | A tool call followed by text: the exact output, with two blocks open. |
| AnthropicStream.ReadsBack | server/internal/relay/stream.go:413-457 | A client, which attributes each fragment to the open block with its index, reads exactly the text of the chunks without a tool delta, and the tool calls with every fragment in the call begun last, whatever index it carried. |
| AnthropicStream.ReadsBackToTheEnd | server/internal/relay/stream.go:413-593 | The same of the whole output, whose last but one event carries the final stop reason, in the words of StopWords, and usage. |
| AnthropicStream.TextLostExactly | server/internal/relay/stream.go:416-448 | Text is lost if and only if some chunk carries both text and a tool delta. |
| AnthropicStream.TextCanBeLost | server/internal/relay/stream.go:416-448 | One chunk whose text no client reads. |
| BedrockStream.StopRoundTrip | server/internal/adapter/transform.go:1449-1486 | Every stop reason survives the trip through the Bedrock vocabulary, unknown becoming end_turn. |
| BedrockStream.FramesWritten | server/internal/relay/stream.go:594-647 | The whole output for any chunks: messageStart, contentBlockStart, one contentBlockDelta for every chunk with text, contentBlockStop, messageStop with the stop reason and metadata with the counts. |
| BedrockStream.FramesRereadToTheSource | server/internal/relay/stream.go:594-606 | Parsing the emitted frames gives back the concatenation of all text, the final stop reason and the final usage. |
| BedrockStream.UsageRoundTrip | server/internal/adapter/transform.go:961-969 | Usage comes back exactly if and only if its cache counts are not negative and its total is not to be derived. |
| BedrockStream.BytesRereadToTheSource | server/internal/adapter/bedrock_adapter.go:459-549 | The de-framer gives back the frames sent and ends cleanly, so the same holds from the bytes on the wire. |
| BedrockStream.CutGivesPrefix | server/internal/relay/stream.go:895-930 | However the bytes are cut, the text read is a prefix of the text sent. |
| BedrockStream.ToolCallsAreLost | server/internal/relay/stream.go:638-647 | No tool delta is read back from the output, so the tool calls read are those of the stream if and only if it has none. |
| BedrockStream.ToolCallCanBeLost | server/internal/relay/stream.go:638-647 | A complete tool call whose client reads stop reason tool_use and no call. |
| StreamPump.Pump.EmitAnthropic | server/internal/relay/stream.go:413-465 | The closure on the shared variables performs the specified rendering of one chunk. |
| StreamPump.Pump.EmitBedrock | server/internal/relay/stream.go:638-647 | The same for Bedrock, writing encoded frames. |
| StreamPump.Pump.WriteBedrockFrame | server/internal/relay/stream.go:739-746 | The bytes on the wire stay the encoding of the frames sent. |
| StreamPump.Pump.CountChunk | server/internal/relay/stream.go:484-511 | Usage is merged through the pointer, text and stop reason kept, as specified. |
| StreamPump.Pump.Process | server/internal/relay/stream.go:472-518 | One event: malformed is skipped, fatal only recorded, anything else counted, and rendered if meaningful or done. |
| StreamPump.Pump.Terminate | server/internal/relay/stream.go:569-606 | The terminal framing from whatever state the stream ended in. |
| StreamPump.Pump.Run | server/internal/relay/stream.go:533-606 | For every event sequence, every point at which the client leaves and every upstream ending, totals and output are those of the events up to the first fatal one. |
| StreamPump.AnthropicEndToEnd | server/internal/relay/stream.go:472-593 | From upstream events to what an Anthropic client reads: a complete protocol run, the text and calls, and the exact condition for one block at a time. |
| StreamPump.BedrockEndToEnd | server/internal/relay/stream.go:472-606 | From upstream events through the bytes to a Bedrock reader: the very completion, stop reason and usage that the pump accounts for, and no tool call. |
| Converse.BedrockToolResultContent | server/internal/adapter/transform.go:1185-1243 | The loop computes the specified items or fails exactly when an image does; the result is never an empty list. |
| Converse.CanonicalToolsToBedrock | server/internal/adapter/transform.go:1247-1276 | Nothing exactly if the tools are absent, null, empty or undecodable, else one spec per tool in order. |
| Converse.ReconstructToolConfigFromHistory | server/internal/adapter/transform.go:1086-1105 | The loops with the set of seen names give the first occurrences of the used names. |
| Converse.FirstOccurrencesMeaning | server/internal/adapter/transform.go:1086-1105 | Those are the same names, each once, ordered by first appearance. |
| Converse.UnifiedToBedrock | server/internal/adapter/transform.go:993-1080 | The nested loops compute the specified translation or fail; what that is, RequestIsFaithful says in terms of the source. |
| Converse.FailsExactly | server/internal/adapter/transform.go:1011-1035 | The translation is refused if and only if the fetch of some image fails, of an image block or of an image inside a tool result. |
| Converse.MessageIsFaithful | server/internal/adapter/transform.go:1006-1046 | In a message every block says something, a cachePoint is never first nor after another, and what is sent is, block by block in source order and each with its own cache flag: the image fetched, the tool use's own id, name and input ({} for a blank one), the tool result's id and decoded items, the non-empty text verbatim. |
| Converse.TranslationIsFaithful | server/internal/adapter/transform.go:1004-1055 | No empty message, and exactly the source messages that have something to send, with their roles and, as above, what they say. |
| Converse.ContentDecodes | server/internal/adapter/transform.go:1185-1243 | A tool result's items: a string or scalar as its text, an object as JSON, and for an array the fetched image or text of every element that has one, in order. |
| Converse.InferenceIsFaithful | server/internal/adapter/transform.go:1056-1063 | Each sampling parameter goes out as given, and none if none is. |
| Converse.RequestIsFaithful | server/internal/adapter/transform.go:993-1080 | The whole request in terms of the source: system, messages, sampling parameters and when there is a toolConfig. |
| Converse.SystemIsFaithful | server/internal/adapter/transform.go:995-1003 | System text goes out verbatim exactly unless it is blank; a cache point is the last block and only ever follows text. |
| Converse.ToolConfigExactly | server/internal/adapter/transform.go:1064-1105 | toolConfig is absent if and only if the tools are unusable and the history has no named tool use; a reconstructed one has exactly the used names, in order of first appearance. |
| Converse.ToolsAreFaithful | server/internal/adapter/transform.go:1247-1300 | Each declared tool's own name, description and schema, an open object for want of one, and the choice auto, any or a named tool; reconstructed tools have nothing but a name. |
| Converse.ConfigMissingExactly | server/internal/adapter/transform.go:1064-1080 | Tool content goes out without a toolConfig if and only if the tools are unusable and the history has tool blocks but no named tool use. |
| Converse.ToolContentWithoutConfig | server/internal/adapter/transform.go:1064-1080 | A concrete request for which it does. |
| UsageAccounting.MergeStreamUsage | server/internal/relay/stream.go:823-853 | Merges through the pointer, allocating on first use, and leaves the specified record. |
| UsageAccounting.FoldMeaning | server/internal/relay/stream.go:823-853 | Over any event list: the last non-zero prompt, completion and cache counts; as total the last reported or, if none, the sum when it first was non-zero from the second event on; reported if any was. |
| UsageAccounting.LastNonZeroMeaning | server/internal/relay/stream.go:828-848 | Last non-zero means an entry with only zeros after it. |
| UsageAccounting.FirstSumMeaning | server/internal/relay/stream.go:849-851 | First sum means the known sum at the first prefix, of two events or more, where it is not zero. |
| UsageAccounting.TotalIsSumExactly | server/internal/relay/stream.go:849-851 | With no reported total, the total of two events or more is the sum of the final counts if and only if the counts still sum to what they summed to at the first prefix, of two events or more, where that was not 0; of a single event, if and only if its counts cancel out. |
| UsageAccounting.SettledTotal | server/internal/relay/stream.go:849-851 | In particular when no count is reported after that prefix. |
| UsageAccounting.TotalCanGoStale | server/internal/relay/stream.go:849-851 | Three events after which it is not. |
| UsageAccounting.CountsMeaning | server/internal/relay/usage.go:11-22 | The logged prompt, completion and total, with reported usage and without, where a completion is one token for every four characters begun. |
| UsageAccounting.CostIsCeiling | server/internal/service/pricing_service.go:79-93 | With counts below 2^31 and prices up to 10^9 nothing overflows 64 bits and the cost is the exact ceiling. |
| UsageAccounting.PriceIsPerMillion | server/internal/service/pricing_service.go:79-93 | A million tokens of a kind cost its price. |
| UsageAccounting.OnlyNothingIsFree | server/internal/service/pricing_service.go:87-92 | The cost is 0 exactly when, of each kind, the count or the price is 0. |
| UsageAccounting.CostIsMonotone | server/internal/service/pricing_service.go:79-93 | More of anything never costs less. |
| UsageAccounting.CostIsSubadditive | server/internal/service/pricing_service.go:79-93 | Splitting usage in two never makes it cheaper and adds at most one micro-dollar. |
| UsageAccounting.BillOfStream | server/internal/relay/stream.go:145-176 | A stream's bill depends only on the last non-zero counts, not on totals or on how counts were spread over events. |
| UsageAccounting.EstimateIsAFloor | server/internal/relay/usage.go:11-22 | Filling in the prompt estimate never lowers a bill, and changes it only when no prompt count was reported. |
| Relay.Relayer.Finish | server/internal/relay/relay.go:433-508 | One row, with the cost of the bill if there is one; that cost is debited exactly if the row is a success and the cost positive. |
| Relay.Relayer.FailNoChannel | server/internal/relay/relay.go:373-383 | One failed row without a channel, one 502, no debit. |
| Relay.Relayer.FailUpstream | server/internal/relay/relay.go:399-406 | One failed row and one error reply with the same status, clamped into 400-599. |
| Relay.Relayer.GateModelPrice | server/internal/relay/relay.go:180-210 | The gate as specified: its price, or the status it rejects with. |
| Relay.Relayer.ServeNonStream | server/internal/relay/relay.go:254-355 | For every behaviour of every attempt: exactly one log row, one reply, and the debit of that row; the candidates tried are the first ones in order, all but the last of which failed in a way the loop goes on from; the books stay balanced over any number of requests. |
| Relay.Relayer.ServeStream | server/internal/relay/stream.go:29-178 | The same while connecting; once connected, the one stream decides the row, its status and whether there is a bill. |
| Relay.Relayer.FinishStream | server/internal/relay/stream.go:145-178 | A row from the finalised counts; a bill only for a stream without an error and with a price. |
| Relay.SettledOnce | server/internal/relay/relay.go:265-350 | The attempts' fates determine the settlement: how many were tried, the row and the reply. |
| Relay.LastAttemptMeaning | server/internal/relay/relay.go:270-288 | An exhausted request reports the last candidate that had an adapter, or none if none had. |
| Relay.LoggedModel | server/internal/router/engine.go:276-282 | A settled row names the channel and the model sent there: the channel's mapping of the effective model, else that model. |
| Relay.StreamLoggedModel | server/internal/relay/stream.go:63-75 | The same of a stream. |
| Relay.SettlementIsHonest | server/internal/relay/relay.go:328-354 | A cost is logged only and always for a success; a success is the answer of the candidate tried last, and the logged and the advertised channel are that candidate; a failure has an error status and debits nothing. |
| Relay.StreamSettlementIsHonest | server/internal/relay/stream.go:128-178 | The same for streams: a success is a clean stream of the candidate tried last. |
| Relay.DebitIsTheCeiling | server/internal/relay/relay.go:480-507 | For an answered request the logged cost is the exact ceiling of its usage at the gate's price, and it is debited exactly unless of each kind the count or the price is 0. |
| Relay.FreeExactly | server/internal/relay/relay.go:480-507 | An answered request debits nothing if and only if its model is unpriced or of each kind the count reported or the price is 0. |
| Relay.StreamFreeExactly | server/internal/relay/stream.go:145-178 | The same of a stream, by the usage it is billed for, or if it broke off. |
| Relay.LoggedCostExactly | server/internal/relay/usage.go:5-22 | The logged cost never exceeds what the row's own counts come to, and equals it if and only if the prompt was reported, or there is no estimate, or pricing the estimate stays within what rounding up had added. |
| Relay.LoggedCostCanBeLow | server/internal/relay/relay.go:347-349 | A row with 1000 logged prompt tokens that costs 150 where its counts come to 3150. |
| Relay.StreamLoggedCost | server/internal/relay/stream.go:145-176 | A clean stream's row costs exactly what its own counts come to. |
| Relay.WithinTheEstimate | server/internal/relay/relay.go:193-208 | Behind a passed gate with a bounded balance, an answer that uses no more than the estimated prompt never costs more than was left. |
| Relay.TriedInTurn | server/internal/relay/relay.go:265-350 | Every attempt before the last one tried was survivable - no adapter, or past the gate an unbuilt or unsent request, a retryable refusal, or a parse error that is no upstream error, which no adapter returns; if the last one was too, the whole budget was tried and the request fails with 502. |
| Relay.RefusalExactly | server/internal/relay/relay.go:318-331 | A refusal past the gate with 429 or 500 to 599 is followed by the next candidate of the budget, or 502 if there is none; any other ends the request with a row and reply of its own status, or 502 if that is no error status. |
| Relay.OutcomeExactly | server/internal/relay/relay.go:265-350 | What follows a missing adapter, a rejection by the gate, an unbuilt or unsent request, and an answer. |
| Relay.StreamTriedInTurn | server/internal/relay/stream.go:52-131 | The same while a stream is being connected. |
| Relay.StreamRefusalExactly | server/internal/relay/stream.go:96-110 | RefusalExactly while a stream is being connected. |
| Relay.StreamOutcomeExactly | server/internal/relay/stream.go:52-178 | OutcomeExactly of a stream, whose row has the finalised counts and, if it broke off, the status sent or the upstream's. |
| SseClient.IndexOfBlankLine | web/src/api/stream.js:140-143 | The first blank line, or that there is none. |
| SseClient.LineMeaning | web/src/api/stream.js:108-129 | What one line does: nothing without data:, nothing if blank or no JSON, the end on [DONE] or an error, else its usage and text. |
| SseClient.LinesJoin | web/src/api/stream.js:107-108 | Lines have no line feed in them and, joined by line feeds, are the text. |
| SseClient.StreamChat.HandleEvent | web/src/api/stream.js:101-128 | One event has the effect of its lines in order, up to the first that ends the stream; a thrown error and [DONE] are told apart. |
| SseClient.StreamChat.Drain | web/src/api/stream.js:142-148 | The inner loop consumes every complete event, holds none back, and leaves unchanged what buffer and future text together mean. |
| SseClient.StreamChat.Run | web/src/api/stream.js:131-156 | For every text and every split into chunks, deltas, usage and termination are those of the lines of the concatenated text; in the end exactly one of onDone, with the last usage, and onError has been called, once. |
| SseClient.NormalizeIsHarmless | web/src/api/stream.js:138-141 | Normalising CRLF in what has arrived so far changes no outcome, whatever follows. |
| SseClient.CrLfNormalized | web/src/api/stream.js:138-141 | A CRLF becomes a line feed whatever stands around it, and a text without any stays as it is (NothingToNormalize). |
| SseClient.StripIsHarmless | web/src/api/stream.js:103-107 | A carriage return at the end of a line is invisible. |
| SseClient.FeedEvent | web/src/api/stream.js:142-148 | Handling the text up to a blank line and then the rest is handling it all. |
| SseClient.BlankIsNothing | web/src/api/stream.js:151-154 | Skipping a blank remainder loses nothing. |
| SseClient.NothingRetracted | web/src/api/stream.js:101-156 | What was told after any text that ends a line is the beginning of what is told in the end, and all of it once the stream has ended. |
| Text.TrimBlank | server/internal/router/expr/expr.go:86-89 | Trimming leaves nothing exactly when there is only white space. |
| Text.TrimMeaning | server/internal/router/expr/expr.go:86-89 | What is cut off at either end is white space, what is left neither begins nor ends with any. |
| Text.WhiteSpace | server/internal/router/expr/expr.go:86-89 | White space is U+0009 to U+000D and U+0020. |

## Left out

- The mode without Redis, counter expiry, more than one instance with its own dirty sets, and a slow flusher of another instance.
- ResetSurvivesExactly: no exact condition while a quota call of the same user runs from before the UPDATE; `LoadUndoes` shows that such a call can undo the reset, and `RunAccounts` and the invariant cover those runs.
- ResetLeaksExactly: the same.
- A failed operation is taken to have had no effect.
- 64-bit wrap-around of counters, weights, token counts and block indices; only the cost is modelled with it.
- Token positions and the wording of errors, log messages and the empty-stream warning.
- White space beyond ASCII in the trimming functions; a character stands for a byte in the expression language and for a code point in stream text, and text is taken to be valid Unicode.
- JSON, base64, image download and sniffing: parameters. Unmarshalling is taken to fill every field a body has, of which the parser reads only those of its event type.
- OpenAI output of the pump, the Anthropic passthrough, the readers of plain SSE upstreams, and the OpenAI and Anthropic stream parsers: the pump is proved for any parser's results.
- Non-streaming response building, error-schema rendering, percent-encoding of header names, inference-profile prefixing and the other stop-reason tables: easy members.
- The flag that marks usage as estimated, latency and time to first token, response ids, request-log capture of bodies, the rule id on a log row.
- Aborting the browser request, HTTP errors before the stream and a decoder's incomplete last character.
- The probe prompt's rendering and truncation; the probe is asked once and its prompt plays no role.
- The rule query is the contract of the database: the enabled rules, sorted by priority and id, ids distinct.
- sort.Sort is modelled by an insertion sort with the same contract.
- System-prompt cache injection, request building and the allowed-model check of a key.

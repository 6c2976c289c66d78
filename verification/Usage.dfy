/** Token accounting: the running total of a stream (server/internal/relay/stream.go), the counts
    that are logged (server/internal/relay/usage.go) and their price
    (server/internal/service/pricing_service.go). */
module UsageAccounting {
  import opened Prelude

  datatype Usage = Usage(prompt: int, completion: int, total: int, cacheRead: int, cacheWrite: int, upstream: bool)

  const NO_USAGE: Usage := Usage(0, 0, 0, 0, 0, false)

  // ------------------------------------------------------------------ the running total

  /** A pointed-to usage record. */
  class UsageCell {
    var prompt: int
    var completion: int
    var total: int
    var cacheRead: int
    var cacheWrite: int
    var upstream: bool

    constructor (u: Usage)
      ensures Value() == u
    {
      prompt, completion, total := u.prompt, u.completion, u.total;
      cacheRead, cacheWrite, upstream := u.cacheRead, u.cacheWrite, u.upstream;
    }

    function Value(): Usage
      reads this
    {
      Usage(prompt, completion, total, cacheRead, cacheWrite, upstream)
    }
  }

  /** The record a possibly nil pointer leads to. */
  ghost function Pointed(p: UsageCell?): Option<Usage>
    reads if p == null then {} else {p}
  {
    if p == null then None else Some(p.Value())
  }

  function Keep(kept: int, next: int): int {
    if next != 0 then next else kept
  }

  /** One event folded into the running total. */
  function Merge(prev: Option<Usage>, next: Usage): Usage {
    match prev
    case None => next
    case Some(p) =>
      var prompt, completion := Keep(p.prompt, next.prompt), Keep(p.completion, next.completion);
      var reported := Keep(p.total, next.total);
      Usage(prompt, completion, if reported == 0 then prompt + completion else reported,
            Keep(p.cacheRead, next.cacheRead), Keep(p.cacheWrite, next.cacheWrite), p.upstream || next.upstream)
  }

  /** The merge as the source writes it: in place through the pointer, allocating on first use. */
  method MergeStreamUsage(prev: UsageCell?, next: Usage) returns (r: UsageCell)
    modifies prev
    ensures prev != null ==> r == prev
    ensures prev == null ==> fresh(r)
    ensures r.Value() == Merge(old(Pointed(prev)), next)
  {
    if prev == null {
      r := new UsageCell(next);
      return;
    }
    if next.prompt != 0 {
      prev.prompt := next.prompt;
    }
    if next.completion != 0 {
      prev.completion := next.completion;
    }
    if next.total != 0 {
      prev.total := next.total;
    }
    if next.cacheRead != 0 {
      prev.cacheRead := next.cacheRead;
    }
    if next.cacheWrite != 0 {
      prev.cacheWrite := next.cacheWrite;
    }
    if next.upstream {
      prev.upstream := true;
    }
    if prev.total == 0 {
      prev.total := prev.prompt + prev.completion;
    }
    return prev;
  }

  /** The running total after a list of usage events. */
  function Fold(us: seq<Usage>): Option<Usage> {
    if us == [] then None else Some(Merge(Fold(us[..|us| - 1]), us[|us| - 1]))
  }

  /** The last entry that is not zero, or zero. */
  function LastNonZero(xs: seq<int>): int {
    if xs == [] then 0 else Keep(LastNonZero(xs[..|xs| - 1]), xs[|xs| - 1])
  }

  lemma {:induction false} LastNonZeroMeaning(xs: seq<int>)
    ensures LastNonZero(xs) == 0 <==> forall x | x in xs :: x == 0
    ensures LastNonZero(xs) != 0 ==>
              exists k | 0 <= k < |xs| :: xs[k] == LastNonZero(xs) && forall j | k < j < |xs| :: xs[j] == 0
  {
    if xs != [] {
      var init, last := xs[..|xs| - 1], xs[|xs| - 1];
      LastNonZeroMeaning(init);
      assert xs == init + [last];
      assert last in xs && forall x :: x in xs <==> x in init || x == last;
      if last == 0 && LastNonZero(init) != 0 {
        var k :| 0 <= k < |init| && init[k] == LastNonZero(init) && forall j | k < j < |init| :: init[j] == 0;
        assert xs[k] == init[k];
        assert forall j | k < j < |xs| :: xs[j] == if j < |init| then init[j] else last;
      }
    }
  }

  function Prompts(us: seq<Usage>): seq<int> { seq(|us|, i requires 0 <= i < |us| => us[i].prompt) }
  function Completions(us: seq<Usage>): seq<int> { seq(|us|, i requires 0 <= i < |us| => us[i].completion) }
  function Totals(us: seq<Usage>): seq<int> { seq(|us|, i requires 0 <= i < |us| => us[i].total) }
  function CacheReads(us: seq<Usage>): seq<int> { seq(|us|, i requires 0 <= i < |us| => us[i].cacheRead) }
  function CacheWrites(us: seq<Usage>): seq<int> { seq(|us|, i requires 0 <= i < |us| => us[i].cacheWrite) }

  /** Prompt plus completion as known after all of these events. */
  function KnownSum(us: seq<Usage>): int {
    LastNonZero(Prompts(us)) + LastNonZero(Completions(us))
  }

  /** The known sum at the first event, from the second on, where it is not zero. */
  function FirstSum(us: seq<Usage>): int {
    if |us| < 2 then 0
    else
      var before := FirstSum(us[..|us| - 1]);
      if before != 0 then before else KnownSum(us)
  }

  lemma {:induction false} FirstSumMeaning(us: seq<Usage>)
    ensures FirstSum(us) == 0 <==> forall n | 2 <= n <= |us| :: KnownSum(us[..n]) == 0
    ensures FirstSum(us) != 0 ==>
              exists n | 2 <= n <= |us| ::
                KnownSum(us[..n]) == FirstSum(us) && forall m | 2 <= m < n :: KnownSum(us[..m]) == 0
  {
    assert us[..|us|] == us;
    if |us| >= 2 {
      var init := us[..|us| - 1];
      FirstSumMeaning(init);
      assert forall n | 0 <= n <= |init| :: init[..n] == us[..n];
      if FirstSum(init) != 0 {
        var n :| 2 <= n <= |init| && KnownSum(init[..n]) == FirstSum(init)
                 && forall m | 2 <= m < n :: KnownSum(init[..m]) == 0;
        assert KnownSum(us[..n]) == FirstSum(us);
        assert forall m | 2 <= m < n :: KnownSum(us[..m]) == 0;
      } else if KnownSum(us) != 0 {
        assert KnownSum(us[..|us|]) == FirstSum(us);
        assert forall m | 2 <= m < |us| :: KnownSum(us[..m]) == KnownSum(init[..m]);
      }
    }
  }

  lemma Fields(us: seq<Usage>)
    requires us != []
    ensures var init, last := us[..|us| - 1], us[|us| - 1];
            && Prompts(us) == Prompts(init) + [last.prompt] && Completions(us) == Completions(init) + [last.completion]
            && Totals(us) == Totals(init) + [last.total] && CacheReads(us) == CacheReads(init) + [last.cacheRead]
            && CacheWrites(us) == CacheWrites(init) + [last.cacheWrite]
  {
  }

  lemma Snoc(xs: seq<int>, x: int)
    ensures LastNonZero(xs + [x]) == Keep(LastNonZero(xs), x)
  {
    assert (xs + [x])[..|xs|] == xs;
  }

  lemma AllSnoc(us: seq<Usage>)
    requires us != []
    ensures var init, last := us[..|us| - 1], us[|us| - 1];
            && LastNonZero(Prompts(us)) == Keep(LastNonZero(Prompts(init)), last.prompt)
            && LastNonZero(Completions(us)) == Keep(LastNonZero(Completions(init)), last.completion)
            && LastNonZero(Totals(us)) == Keep(LastNonZero(Totals(init)), last.total)
            && LastNonZero(CacheReads(us)) == Keep(LastNonZero(CacheReads(init)), last.cacheRead)
            && LastNonZero(CacheWrites(us)) == Keep(LastNonZero(CacheWrites(init)), last.cacheWrite)
  {
    hide Prompts, Completions, Totals, CacheReads, CacheWrites, LastNonZero, Keep;
    Fields(us);
    var init, last := us[..|us| - 1], us[|us| - 1];
    Snoc(Prompts(init), last.prompt);
    Snoc(Completions(init), last.completion);
    Snoc(Totals(init), last.total);
    Snoc(CacheReads(init), last.cacheRead);
    Snoc(CacheWrites(init), last.cacheWrite);
  }

  /** What any list of usage events amounts to: the last non-zero count of each kind, and as total the
      last reported one or, if none was ever reported, the sum at the moment it first was non-zero. */
  lemma {:induction false} FoldMeaning(us: seq<Usage>)
    requires us != []
    ensures Fold(us) == Some(Usage(LastNonZero(Prompts(us)), LastNonZero(Completions(us)),
                                   Keep(FirstSum(us), LastNonZero(Totals(us))),
                                   LastNonZero(CacheReads(us)), LastNonZero(CacheWrites(us)),
                                   exists u | u in us :: u.upstream))
  {
    hide Prompts, Completions, Totals, CacheReads, CacheWrites, LastNonZero;
    var init, last := us[..|us| - 1], us[|us| - 1];
    assert us == init + [last];
    AllSnoc(us);
    if init == [] {
      assert us == [last];
      NothingYet(init);
    } else {
      FoldMeaning(init);
    }
  }

  lemma NothingYet(us: seq<Usage>)
    requires us == []
    ensures LastNonZero(Prompts(us)) == LastNonZero(Completions(us)) == LastNonZero(Totals(us)) == 0
    ensures LastNonZero(CacheReads(us)) == LastNonZero(CacheWrites(us)) == 0
  {
  }

  /** The first prefix, of two events or more, after which the known counts sum to something. */
  predicate SumAppears(us: seq<Usage>, n: nat) {
    2 <= n <= |us| && KnownSum(us[..n]) != 0 && forall m | 2 <= m < n :: KnownSum(us[..m]) == 0
  }

  /** When no event reports a total, the total is the sum of the final counts exactly when the counts
      still sum to what they summed to when they first did; of a single event, exactly when its counts
      cancel out. */
  lemma TotalIsSumExactly(us: seq<Usage>)
    requires us != [] && forall u | u in us :: u.total == 0
    ensures var t := Fold(us).value;
            t.total == t.prompt + t.completion
            <==> if |us| == 1 then us[0].prompt + us[0].completion == 0
                 else forall n: nat | SumAppears(us, n) :: KnownSum(us[..n]) == KnownSum(us)
  {
    hide Fold, LastNonZero, FirstSum;
    FoldMeaning(us);
    LastNonZeroMeaning(Totals(us));
    FirstSumMeaning(us);
    if |us| == 1 {
      SingleSum(us);
    } else {
      assert us[..|us|] == us;
      if FirstSum(us) != 0 {
        var n :| 2 <= n <= |us| && KnownSum(us[..n]) == FirstSum(us) && forall m | 2 <= m < n :: KnownSum(us[..m]) == 0;
        assert SumAppears(us, n);
        assert forall k: nat | SumAppears(us, k) :: k == n;
      }
    }
  }

  lemma SingleSum(us: seq<Usage>)
    requires |us| == 1
    ensures KnownSum(us) == us[0].prompt + us[0].completion && FirstSum(us) == 0
  {
    assert Prompts(us) == [us[0].prompt] && Completions(us) == [us[0].completion];
    assert [us[0].prompt][..0] == [] && [us[0].completion][..0] == [];
    assert LastNonZero([]) == 0;
  }

  /** In particular when no count is reported after the event at which they first sum to something. */
  lemma SettledTotal(us: seq<Usage>, n: nat)
    requires SumAppears(us, n) && forall u | u in us :: u.total == 0
    requires forall k | n <= k < |us| :: us[k].prompt == 0 && us[k].completion == 0
    ensures Fold(us).value.total == Fold(us).value.prompt + Fold(us).value.completion
  {
    hide Fold, KnownSum;
    TotalIsSumExactly(us);
    SilentTail(us, n);
    assert forall k: nat | SumAppears(us, k) :: k == n;
  }

  lemma {:induction false} SilentTail(us: seq<Usage>, n: nat)
    requires n <= |us| && forall k | n <= k < |us| :: us[k].prompt == 0 && us[k].completion == 0
    ensures KnownSum(us[..n]) == KnownSum(us)
    decreases |us|
  {
    assert us[..|us|] == us;
    if n < |us| {
      var init := us[..|us| - 1];
      assert init[..n] == us[..n];
      SilentTail(init, n);
      AllSnoc(us);
    }
  }

  /** The total does go stale: a third event moves the completion count and leaves the total behind. */
  lemma TotalCanGoStale()
    ensures var us := [Usage(25, 0, 0, 0, 0, true), Usage(0, 1, 0, 0, 0, true), Usage(0, 42, 0, 0, 0, true)];
            Fold(us) == Some(Usage(25, 42, 26, 0, 0, true))
  {
    var a, b, c := Usage(25, 0, 0, 0, 0, true), Usage(0, 1, 0, 0, 0, true), Usage(0, 42, 0, 0, 0, true);
    assert [a, b, c][..2] == [a, b] && [a, b][..1] == [a] && [a][..0] == [];
    assert Fold([]) == None;
    assert Fold([a]) == Some(Merge(Fold([]), a)) == Some(a);
    assert Fold([a, b]) == Some(Merge(Fold([a]), b));
  }

  // ------------------------------------------------------------------ logged counts

  datatype Counts = Counts(prompt: int, completion: int, total: int)

  function UsageTokens(u: Usage, estPrompt: int): Counts {
    var prompt := if u.prompt == 0 && estPrompt > 0 then estPrompt else u.prompt;
    Counts(prompt, u.completion, if u.total == 0 then prompt + u.completion else u.total)
  }

  function EstimateTextTokens(length: nat): nat {
    if length == 0 then 0 else (length + 3) / 4
  }

  function FinalizeUsage(usage: Option<Usage>, textLength: nat, estPrompt: int): Counts {
    match usage
    case Some(u) => UsageTokens(u, estPrompt)
    case None =>
      var completion := EstimateTextTokens(textLength);
      Counts(estPrompt, completion, estPrompt + completion)
  }

  /** The usage a finished stream is billed for: the logged counts plus the cache counts. */
  function StreamBill(usage: Option<Usage>, textLength: nat, estPrompt: int): Usage {
    var c := FinalizeUsage(usage, textLength, estPrompt);
    match usage
    case Some(u) => Usage(c.prompt, c.completion, c.total, u.cacheRead, u.cacheWrite, false)
    case None => Usage(c.prompt, c.completion, c.total, 0, 0, false)
  }

  /** What is logged of an answer or stream. With reported usage: the estimate in place of a prompt of
      0, the completion reported, and the total reported or, if that is 0, their sum. Without: the
      estimated prompt, one token for every four characters of text begun, and their sum. */
  lemma CountsMeaning(usage: Option<Usage>, textLength: nat, estPrompt: int)
    ensures var c := FinalizeUsage(usage, textLength, estPrompt);
            && (usage.Some? ==>
                  var u := usage.value;
                  && c == UsageTokens(u, estPrompt) && c.completion == u.completion
                  && (u.prompt != 0 || estPrompt <= 0 ==> c.prompt == u.prompt)
                  && (u.prompt == 0 && estPrompt > 0 ==> c.prompt == estPrompt)
                  && (u.total != 0 ==> c.total == u.total)
                  && (u.total == 0 ==> c.total == c.prompt + c.completion))
            && (usage.None? ==>
                  && c.prompt == estPrompt && c.total == c.prompt + c.completion
                  && c.completion >= 0 && 4 * (c.completion - 1) < textLength <= 4 * c.completion)
  {
  }

  // ------------------------------------------------------------------ price

  /** Micro-dollars for a million tokens of each kind. */
  datatype Price = Price(input: int, output: int, cacheRead: int, cacheWrite: int)

  const PER_MILLION: int := 1_000_000

  const TWO63: int := 0x8000_0000_0000_0000

  /** The value a 64-bit signed register holds. */
  function Wrap64(x: int): (r: int)
    ensures -TWO63 <= r < TWO63
    ensures -TWO63 <= x < TWO63 ==> r == x
  {
    (x + TWO63) % (2 * TWO63) - TWO63
  }

  function Times64(a: int, b: int): int { Wrap64(a * b) }

  /** The source's cost, with the wrap-around of its 64-bit arithmetic. The dividend is positive
      whenever the addition does not wrap; Go's division truncates toward zero otherwise. */
  function Cost(price: Option<Price>, u: Usage): int {
    match price
    case None => 0
    case Some(p) =>
      var a := Wrap64(Times64(u.prompt, p.input) + Times64(u.completion, p.output));
      var numerator := Wrap64(Wrap64(a + Times64(u.cacheRead, p.cacheRead)) + Times64(u.cacheWrite, p.cacheWrite));
      if numerator <= 0 then 0
      else
        var dividend := Wrap64(numerator + PER_MILLION - 1);
        if dividend >= 0 then dividend / PER_MILLION else -(-dividend / PER_MILLION)
  }

  /** What a million of these requests would cost. */
  function Numerator(p: Price, u: Usage): int {
    u.prompt * p.input + u.completion * p.output + u.cacheRead * p.cacheRead + u.cacheWrite * p.cacheWrite
  }

  predicate CountsFit(u: Usage) {
    && 0 <= u.prompt < 0x8000_0000 && 0 <= u.completion < 0x8000_0000
    && 0 <= u.cacheRead < 0x8000_0000 && 0 <= u.cacheWrite < 0x8000_0000
  }

  predicate PricesFit(p: Price) {
    && 0 <= p.input <= 1_000_000_000 && 0 <= p.output <= 1_000_000_000
    && 0 <= p.cacheRead <= 1_000_000_000 && 0 <= p.cacheWrite <= 1_000_000_000
  }

  lemma ProductFits(a: int, b: int)
    requires 0 <= a < 0x8000_0000 && 0 <= b <= 1_000_000_000
    ensures 0 <= a * b <= 0x7fff_ffff * 1_000_000_000
  {
    assert a * b <= 0x7fff_ffff * b;
  }

  /** In the range of real counts and prices nothing overflows and the cost is the exact ceiling. */
  lemma CostIsCeiling(p: Price, u: Usage)
    requires CountsFit(u) && PricesFit(p)
    ensures var c := Cost(Some(p), u);
            && c >= 0 && (c - 1) * PER_MILLION < Numerator(p, u) <= c * PER_MILLION
  {
    hide Wrap64;
    ProductFits(u.prompt, p.input);
    ProductFits(u.completion, p.output);
    ProductFits(u.cacheRead, p.cacheRead);
    ProductFits(u.cacheWrite, p.cacheWrite);
  }

  /** A price is what a million tokens of its kind cost. */
  lemma PriceIsPerMillion(p: Price, n: nat)
    requires PricesFit(p) && n * 1_000_000 < 0x8000_0000
    ensures Cost(Some(p), Usage(n * 1_000_000, 0, 0, 0, 0, false)) == n * p.input
    ensures Cost(Some(p), Usage(0, n * 1_000_000, 0, 0, 0, false)) == n * p.output
    ensures Cost(Some(p), Usage(0, 0, 0, n * 1_000_000, 0, false)) == n * p.cacheRead
    ensures Cost(Some(p), Usage(0, 0, 0, 0, n * 1_000_000, false)) == n * p.cacheWrite
  {
    hide Cost;
    CostIsCeiling(p, Usage(n * 1_000_000, 0, 0, 0, 0, false));
    CostIsCeiling(p, Usage(0, n * 1_000_000, 0, 0, 0, false));
    CostIsCeiling(p, Usage(0, 0, 0, n * 1_000_000, 0, false));
    CostIsCeiling(p, Usage(0, 0, 0, 0, n * 1_000_000, false));
    MillionTimes(n, p.input);
    MillionTimes(n, p.output);
    MillionTimes(n, p.cacheRead);
    MillionTimes(n, p.cacheWrite);
  }

  lemma MillionTimes(n: nat, price: int)
    ensures n * 1_000_000 * price == n * price * PER_MILLION
  {
  }

  /** Nothing was used of any kind that has a price. */
  predicate NothingPriced(p: Price, u: Usage) {
    && (u.prompt == 0 || p.input == 0) && (u.completion == 0 || p.output == 0)
    && (u.cacheRead == 0 || p.cacheRead == 0) && (u.cacheWrite == 0 || p.cacheWrite == 0)
  }

  /** Usage is never free: the cost is zero exactly when each count or its price is. */
  lemma OnlyNothingIsFree(p: Price, u: Usage)
    requires CountsFit(u) && PricesFit(p)
    ensures Cost(Some(p), u) == 0 <==> NothingPriced(p, u)
  {
    hide Cost, Numerator;
    CostIsCeiling(p, u);
    NumeratorSign(p, u);
  }

  lemma NumeratorSign(p: Price, u: Usage)
    requires CountsFit(u) && PricesFit(p)
    ensures Numerator(p, u) >= 0 && (Numerator(p, u) == 0 <==> NothingPriced(p, u))
  {
    ProductSign(u.prompt, p.input);
    ProductSign(u.completion, p.output);
    ProductSign(u.cacheRead, p.cacheRead);
    ProductSign(u.cacheWrite, p.cacheWrite);
  }

  lemma ProductSign(a: int, b: int)
    requires a >= 0 && b >= 0
    ensures a * b >= 0 && (a * b == 0 <==> a == 0 || b == 0)
  {
  }

  predicate AtMost(u: Usage, v: Usage) {
    u.prompt <= v.prompt && u.completion <= v.completion && u.cacheRead <= v.cacheRead && u.cacheWrite <= v.cacheWrite
  }

  lemma ProductGrows(a: int, b: int, p: int)
    requires a <= b && p >= 0
    ensures a * p <= b * p
  {
  }

  /** More of anything never costs less. */
  lemma CostIsMonotone(p: Price, u: Usage, v: Usage)
    requires CountsFit(u) && CountsFit(v) && PricesFit(p) && AtMost(u, v)
    ensures Cost(Some(p), u) <= Cost(Some(p), v)
  {
    hide Cost;
    ProductGrows(u.prompt, v.prompt, p.input);
    ProductGrows(u.completion, v.completion, p.output);
    ProductGrows(u.cacheRead, v.cacheRead, p.cacheRead);
    ProductGrows(u.cacheWrite, v.cacheWrite, p.cacheWrite);
    CostIsCeiling(p, u);
    CostIsCeiling(p, v);
  }

  function Plus(u: Usage, v: Usage): Usage {
    Usage(u.prompt + v.prompt, u.completion + v.completion, u.total + v.total,
          u.cacheRead + v.cacheRead, u.cacheWrite + v.cacheWrite, u.upstream || v.upstream)
  }

  /** Splitting usage over two requests never makes it cheaper and adds at most one micro-dollar. */
  lemma CostIsSubadditive(p: Price, u: Usage, v: Usage)
    requires CountsFit(u) && CountsFit(v) && CountsFit(Plus(u, v)) && PricesFit(p)
    ensures var whole, parts := Cost(Some(p), Plus(u, v)), Cost(Some(p), u) + Cost(Some(p), v);
            whole <= parts <= whole + 1
  {
    hide Cost, Numerator;
    CostIsCeiling(p, u);
    CostIsCeiling(p, v);
    CostIsCeiling(p, Plus(u, v));
    NumeratorAdds(p, u, v);
  }

  lemma NumeratorAdds(p: Price, u: Usage, v: Usage)
    ensures Numerator(p, Plus(u, v)) == Numerator(p, u) + Numerator(p, v)
  {
    Distribute(u.prompt, v.prompt, p.input);
    Distribute(u.completion, v.completion, p.output);
    Distribute(u.cacheRead, v.cacheRead, p.cacheRead);
    Distribute(u.cacheWrite, v.cacheWrite, p.cacheWrite);
  }

  lemma Distribute(a: int, b: int, p: int)
    ensures (a + b) * p == a * p + b * p
  {
  }

  /** The bill of a stream is decided by the last non-zero count of each kind: neither the events'
      totals, nor how the counts were spread over events, nor repeats change it. */
  lemma BillOfStream(p: Option<Price>, us: seq<Usage>, vs: seq<Usage>, lengthU: nat, lengthV: nat, est: int)
    requires us != [] && vs != []
    requires LastNonZero(Prompts(us)) == LastNonZero(Prompts(vs))
    requires LastNonZero(Completions(us)) == LastNonZero(Completions(vs))
    requires LastNonZero(CacheReads(us)) == LastNonZero(CacheReads(vs))
    requires LastNonZero(CacheWrites(us)) == LastNonZero(CacheWrites(vs))
    ensures Cost(p, StreamBill(Fold(us), lengthU, est)) == Cost(p, StreamBill(Fold(vs), lengthV, est))
  {
    hide Fold, LastNonZero, Prompts, Completions, CacheReads, CacheWrites, Totals, FirstSum, Wrap64;
    FoldMeaning(us);
    FoldMeaning(vs);
  }

  /** Filling in the prompt estimate never lowers a bill. */
  lemma EstimateIsAFloor(p: Price, u: Usage, length: nat, est: int)
    requires CountsFit(u) && PricesFit(p) && 0 <= est < 0x8000_0000
    ensures Cost(Some(p), u) <= Cost(Some(p), StreamBill(Some(u), length, est))
    ensures u.prompt == 0 ==> StreamBill(Some(u), length, est).prompt == est
    ensures u.prompt != 0 ==> Cost(Some(p), u) == Cost(Some(p), StreamBill(Some(u), length, est))
  {
    hide Wrap64;
    CostIsMonotone(p, u, StreamBill(Some(u), length, est));
  }
}

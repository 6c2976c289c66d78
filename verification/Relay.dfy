/** The failover loop, its exits and the accounting of a request: serveNonStream and finish in
    server/internal/relay/relay.go, serveStream in server/internal/relay/stream.go. What the outside
    world does to each attempt is a parameter. */
module Relay {
  import opened Prelude
  import opened UsageAccounting
  import opened LoadBalance

  // ------------------------------------------------------------------ one request's record

  datatype Attempt = NoAttempt | Attempt(channel: Channel, upstream: string)

  /** A row of the request log; channel 0 means none. */
  datatype LogRow = LogRow(channel: nat, upstream: string, success: bool, http: int, counts: Counts, cost: Option<int>)

  /** What the client sees: an error, a whole answer, or an opened stream, with the advertised channel. */
  datatype Reply = Failure(http: int) | Answer(channel: nat) | Stream(channel: nat)

  datatype Bill = Bill(price: Option<Price>, usage: Usage)

  function UpstreamModel(ch: Channel, external: string): string {
    if external in ch.mapping && ch.mapping[external] != "" then ch.mapping[external] else external
  }

  function RowOf(model: string, att: Attempt, success: bool, http: int, counts: Counts, bill: Option<Bill>): LogRow {
    LogRow(if att.Attempt? then att.channel.id else 0,
           if att.Attempt? && att.upstream != "" then att.upstream else model,
           success, http, counts,
           if bill.Some? then Some(Cost(bill.value.price, bill.value.usage)) else None)
  }

  /** The quota a row debits. */
  function Debit(row: LogRow): seq<int> {
    if row.success && row.cost.Some? && row.cost.value > 0 then [row.cost.value] else []
  }

  function AllDebits(logs: seq<LogRow>): seq<int> {
    if logs == [] then [] else AllDebits(logs[..|logs| - 1]) + Debit(logs[|logs| - 1])
  }

  lemma DebitsAppend(logs: seq<LogRow>, row: LogRow)
    ensures AllDebits(logs + [row]) == AllDebits(logs) + Debit(row)
  {
    assert (logs + [row])[..|logs|] == logs;
  }

  /** Nothing but the prompt estimate is known of a request that failed. */
  function NoCompletion(est: int): Counts { Counts(est, 0, est) }

  // ------------------------------------------------------------------ what can happen to an attempt

  datatype Lookup<T> = Found(value: T) | LookupFails

  /** The world around one candidate: is there an adapter, its price, the balance left (negative for
      unlimited), and what the upstream does. */
  datatype World<T> = World(adapter: bool, price: Lookup<Option<Price>>, remaining: Lookup<int>, upstream: T)

  /** Without streaming: an upstream error carries a status, 0 for a success body that cannot be read
      and 200 for one that reports an error, so that both end the request with 502. Garbled is any other
      parse error; the loop goes on from it, but no adapter returns one. */
  datatype Upstream = BuildFails | CallFails | Garbled | Refused(status: int) | Answered(usage: Usage)

  datatype StreamError = ReadError | UpstreamFailed(status: int)

  datatype Connection =
    | NotBuilt
    | NotReached
    | Rejected(status: int)
    | Connected(usage: Option<Usage>, textLength: nat, error: Option<StreamError>)

  predicate Retryable(status: int) { status == 429 || 500 <= status <= 599 }

  function Clamp(status: int): (r: int)
    ensures 400 <= r <= 599
  {
    if status < 400 || status > 599 then 502 else status
  }

  /** The price gate: the price, or the status of the rejection. */
  function Gate<T>(w: World<T>, est: int): Result<Option<Price>, int> {
    if w.price.LookupFails? then Err(500)
    else if w.remaining.LookupFails? then Err(500)
    else if 0 <= w.remaining.value < Cost(w.price.value, Usage(est, 0, 0, 0, 0, false)) then Err(402)
    else Ok(w.price.value)
  }

  // ------------------------------------------------------------------ what a request may come to

  /** Either the loop goes on to the next candidate or the request ends here. */
  datatype Fate = GoesOn | Ends(row: LogRow, reply: Reply)

  function FailedRow(model: string, att: Attempt, http: int, est: int): LogRow {
    RowOf(model, att, false, http, NoCompletion(est), None)
  }

  function FateOf(model: string, att: Attempt, w: World<Upstream>, est: int): Fate
    requires att.Attempt?
  {
    if !w.adapter then GoesOn
    else
      match Gate(w, est)
      case Err(http) => Ends(FailedRow(model, att, http, est), Failure(http))
      case Ok(price) =>
        match w.upstream
        case BuildFails => GoesOn
        case CallFails => GoesOn
        case Garbled => GoesOn
        case Refused(status) =>
          if Retryable(status) then GoesOn
          else Ends(FailedRow(model, att, Clamp(status), est), Failure(Clamp(status)))
        case Answered(usage) =>
          Ends(RowOf(model, att, true, 200, UsageTokens(usage, est), Some(Bill(price, usage))), Answer(att.channel.id))
  }

  function StreamRow(model: string, att: Attempt, price: Option<Price>, c: Connection, est: int): LogRow
    requires c.Connected?
  {
    var counts := FinalizeUsage(c.usage, c.textLength, est);
    match c.error
    case None =>
      var bill := if price.Some? then Some(Bill(price, StreamBill(c.usage, c.textLength, est))) else None;
      RowOf(model, att, true, 200, counts, bill)
    case Some(ReadError) => RowOf(model, att, false, 200, counts, None)
    case Some(UpstreamFailed(status)) => RowOf(model, att, false, Clamp(status), counts, None)
  }

  function StreamFateOf(model: string, att: Attempt, w: World<Connection>, est: int): Fate
    requires att.Attempt?
  {
    if !w.adapter then GoesOn
    else
      match Gate(w, est)
      case Err(http) => Ends(FailedRow(model, att, http, est), Failure(http))
      case Ok(price) =>
        match w.upstream
        case NotBuilt => GoesOn
        case NotReached => GoesOn
        case Rejected(status) =>
          if Retryable(status) then GoesOn
          else Ends(FailedRow(model, att, Clamp(status), est), Failure(Clamp(status)))
        case Connected(_, _, _) => Ends(StreamRow(model, att, price, w.upstream, est), Stream(att.channel.id))
  }

  function AttemptOn(ch: Channel, effective: string): Attempt { Attempt(ch, UpstreamModel(ch, effective)) }

  /** The last candidate, of the first n, that had an adapter: the one an exhausted request reports. */
  function LastAttempt<T>(candidates: seq<Channel>, effective: string, world: nat -> World<T>, n: nat): Attempt
    requires n <= |candidates|
  {
    if n == 0 then NoAttempt
    else if world(n - 1).adapter then AttemptOn(candidates[n - 1], effective)
    else LastAttempt(candidates, effective, world, n - 1)
  }

  lemma LastAttemptStep<T>(candidates: seq<Channel>, effective: string, world: nat -> World<T>, n: nat)
    requires n <= |candidates|
    ensures n == 0 ==> LastAttempt(candidates, effective, world, n) == NoAttempt
    ensures n > 0 ==> LastAttempt(candidates, effective, world, n)
                      == if world(n - 1).adapter then AttemptOn(candidates[n - 1], effective)
                         else LastAttempt(candidates, effective, world, n - 1)
  {
  }

  /** Which attempt an exhausted request reports: that of the last candidate with an adapter, if any. */
  lemma {:induction false} LastAttemptMeaning<T>(candidates: seq<Channel>, effective: string,
                                                 world: nat -> World<T>, n: nat)
    requires n <= |candidates|
    ensures LastAttempt(candidates, effective, world, n) == NoAttempt <==> forall k: nat | k < n :: !world(k).adapter
    ensures forall k: nat | k < n && world(k).adapter && (forall j | k < j < n :: !world(j).adapter) ::
              LastAttempt(candidates, effective, world, n) == AttemptOn(candidates[k], effective)
  {
    if n > 0 && !world(n - 1).adapter {
      LastAttemptMeaning(candidates, effective, world, n - 1);
    }
  }

  /** How a request that reached the loop was settled: the candidates before some point all failed in
      a way the loop continues on; at that point it ended, or the budget was spent. */
  ghost predicate Settled(fates: seq<Fate>, exhausted: LogRow, tried: nat, row: LogRow, reply: Reply) {
    || (tried == |fates| && (forall k | 0 <= k < tried :: fates[k] == GoesOn)
        && row == exhausted && reply == Failure(502))
    || (0 < tried <= |fates| && (forall k | 0 <= k < tried - 1 :: fates[k] == GoesOn)
        && fates[tried - 1] == Ends(row, reply))
  }

  /** The settlement is determined by the fates. */
  lemma SettledOnce(fates: seq<Fate>, exhausted: LogRow, t1: nat, r1: LogRow, p1: Reply, t2: nat, r2: LogRow, p2: Reply)
    requires Settled(fates, exhausted, t1, r1, p1) && Settled(fates, exhausted, t2, r2, p2)
    ensures t1 == t2 && r1 == r2 && p1 == p2
  {
  }

  /** A later candidate is tried only after every earlier one failed in a way the loop goes on from. */
  lemma PassedBefore(fates: seq<Fate>, exhausted: LogRow, tried: nat, row: LogRow, reply: Reply, k: nat)
    requires Settled(fates, exhausted, tried, row, reply) && k + 1 < tried
    ensures fates[k] == GoesOn
  {
  }

  // ------------------------------------------------------------------ the relay

  class Relayer {
    const model: string
    var logs: seq<LogRow>
    var consumed: seq<int>
    var replies: seq<Reply>

    /** The books balance: one log row for every reply, and what was debited is what the successful
        rows say they cost. */
    ghost predicate Balanced()
      reads this
    {
      |logs| == |replies| && consumed == AllDebits(logs)
    }

    constructor (model: string)
      ensures this.model == model && logs == [] && consumed == [] && replies == [] && Balanced()
    {
      this.model, logs, consumed, replies := model, [], [], [];
    }

    /** Writes the log row and, on success, debits its cost. */
    method Finish(att: Attempt, success: bool, http: int, counts: Counts, bill: Option<Bill>)
      modifies this`logs, this`consumed
      ensures logs == old(logs) + [RowOf(model, att, success, http, counts, bill)]
      ensures consumed == old(consumed) + Debit(RowOf(model, att, success, http, counts, bill))
    {
      hide Cost;
      var channelId := 0;
      var upstreamModel := model;
      if att.Attempt? {
        channelId := att.channel.id;
        if att.upstream != "" {
          upstreamModel := att.upstream;
        }
      }
      var cost := 0;
      var logged := None;
      if bill.Some? {
        cost := Cost(bill.value.price, bill.value.usage);
        logged := Some(cost);
      }
      logs := logs + [LogRow(channelId, upstreamModel, success, http, counts, logged)];
      if success && cost > 0 {
        consumed := consumed + [cost];
      }
    }

    method FailNoChannel(est: int)
      modifies this
      ensures logs == old(logs) + [FailedRow(model, NoAttempt, 502, est)]
      ensures consumed == old(consumed) + Debit(FailedRow(model, NoAttempt, 502, est))
      ensures replies == old(replies) + [Failure(502)]
      ensures old(Balanced()) ==> Balanced()
    {
      DebitsAppend(logs, FailedRow(model, NoAttempt, 502, est));
      replies := replies + [Failure(502)];
      Finish(NoAttempt, false, 502, NoCompletion(est), None);
    }

    method FailAllCandidates(att: Attempt, est: int)
      modifies this
      ensures logs == old(logs) + [FailedRow(model, att, 502, est)]
      ensures consumed == old(consumed) + Debit(FailedRow(model, att, 502, est))
      ensures replies == old(replies) + [Failure(502)]
    {
      replies := replies + [Failure(502)];
      Finish(att, false, 502, NoCompletion(est), None);
    }

    /** failUpstream, and the rejections that gateModelPrice hands back. */
    method Fail(att: Attempt, http: int, est: int)
      modifies this
      ensures logs == old(logs) + [FailedRow(model, att, http, est)]
      ensures consumed == old(consumed) + Debit(FailedRow(model, att, http, est))
      ensures replies == old(replies) + [Failure(http)]
    {
      replies := replies + [Failure(http)];
      Finish(att, false, http, NoCompletion(est), None);
    }

    method FailUpstream(att: Attempt, status0: int, est: int)
      modifies this
      ensures logs == old(logs) + [FailedRow(model, att, Clamp(status0), est)]
      ensures consumed == old(consumed) + Debit(FailedRow(model, att, Clamp(status0), est))
      ensures replies == old(replies) + [Failure(Clamp(status0))]
    {
      var status := status0;
      if status < 400 || status > 599 {
        status := 502;
      }
      Fail(att, status, est);
    }

    /** Price lookup, then the estimated cost of the prompt against the balance left. */
    method GateModelPrice<T>(w: World<T>, est: int) returns (price: Option<Price>, reject: Option<int>)
      ensures Gate(w, est) == if reject.Some? then Err(reject.value) else Ok(price)
    {
      hide Cost;
      if w.price.LookupFails? {
        return None, Some(500);
      }
      price := w.price.value;
      var estCost := Cost(price, Usage(est, 0, 0, 0, 0, false));
      if w.remaining.LookupFails? {
        return None, Some(500);
      }
      var remaining := w.remaining.value;
      if remaining >= 0 && remaining < estCost {
        return None, Some(402);
      }
      return price, None;
    }

    /** The non-streaming loop over the selection's candidates. */
    method ServeNonStream(sel: Selection, effective: string, est: int, world: nat -> World<Upstream>)
      returns (ghost tried: nat, ghost row: LogRow, ghost reply: Reply)
      requires sel.cursor == 0
      modifies this, sel
      ensures logs == old(logs) + [row] && replies == old(replies) + [reply] && consumed == old(consumed) + Debit(row)
      ensures var n := Budget(sel.candidates, sel.maxRetries);
              Settled(Fates(model, sel.candidates, effective, est, world, n),
                      FailedRow(model, LastAttempt(sel.candidates, effective, world, n), 502, est), tried, row, reply)
      ensures sel.cursor == tried <= Budget(sel.candidates, sel.maxRetries)
      ensures old(Balanced()) ==> Balanced()
    {
      hide AllDebits, Gate, Cost, Settled, RowOf, Debit, FailedRow, Clamp, UsageTokens, LastAttempt, Retryable;
      var lastAtt := NoAttempt;
      LastAttemptStep(sel.candidates, effective, world, 0);
      tried := 0;
      ghost var n := Budget(sel.candidates, sel.maxRetries);
      ghost var fates := Fates(model, sel.candidates, effective, est, world, n);
      ghost var exhausted := FailedRow(model, LastAttempt(sel.candidates, effective, world, n), 502, est);
      while true
        invariant sel.cursor == tried <= n
        invariant logs == old(logs) && replies == old(replies) && consumed == old(consumed)
        invariant forall k | 0 <= k < tried :: fates[k] == GoesOn
        invariant lastAtt == LastAttempt(sel.candidates, effective, world, tried)
        decreases n - tried
      {
        var next := sel.Next();
        if next.None? {
          break;
        }
        var ch := next.value;
        var w := world(sel.cursor - 1);
        tried := tried + 1;
        LastAttemptStep(sel.candidates, effective, world, tried);
        assert fates[tried - 1] == FateOf(model, AttemptOn(ch, effective), w, est);
        if !w.adapter {
          continue;
        }
        lastAtt := Attempt(ch, UpstreamModel(ch, effective));
        var price, reject := GateModelPrice(w, est);
        if reject.Some? {
          Fail(lastAtt, reject.value, est);
          row, reply := SettledAt(fates, exhausted, tried);
          DebitsAppend(old(logs), row);
          return;
        }
        match w.upstream {
          case BuildFails => continue;
          case CallFails => continue;
          case Garbled => continue;
          case Refused(status) =>
            if !Retryable(status) {
              FailUpstream(lastAtt, status, est);
              row, reply := SettledAt(fates, exhausted, tried);
              DebitsAppend(old(logs), row);
              return;
            }
            continue;
          case Answered(usage) =>
            replies := replies + [Answer(ch.id)];
            Finish(lastAtt, true, 200, UsageTokens(usage, est), Some(Bill(price, usage)));
            row, reply := SettledAt(fates, exhausted, tried);
            DebitsAppend(old(logs), row);
            return;
        }
      }
      FailAllCandidates(lastAtt, est);
      SettledExhausted(fates, exhausted);
      row, reply := exhausted, Failure(502);
      DebitsAppend(old(logs), row);
    }

    /** The streaming loop: failover while connecting, then one stream that cannot be retried. */
    method ServeStream(sel: Selection, effective: string, est: int, world: nat -> World<Connection>)
      returns (ghost tried: nat, ghost row: LogRow, ghost reply: Reply)
      requires sel.cursor == 0
      modifies this, sel
      ensures logs == old(logs) + [row] && replies == old(replies) + [reply] && consumed == old(consumed) + Debit(row)
      ensures var n := Budget(sel.candidates, sel.maxRetries);
              Settled(StreamFates(model, sel.candidates, effective, est, world, n),
                      FailedRow(model, LastAttempt(sel.candidates, effective, world, n), 502, est), tried, row, reply)
      ensures sel.cursor == tried <= Budget(sel.candidates, sel.maxRetries)
      ensures old(Balanced()) ==> Balanced()
    {
      hide AllDebits, Gate, Cost, Settled, RowOf, StreamRow, Debit, FailedRow, Clamp, LastAttempt, Retryable;
      var lastAtt := NoAttempt;
      LastAttemptStep(sel.candidates, effective, world, 0);
      var price: Option<Price> := None;
      var resp: Option<Connection> := None;
      tried := 0;
      ghost var n := Budget(sel.candidates, sel.maxRetries);
      ghost var fates := StreamFates(model, sel.candidates, effective, est, world, n);
      ghost var exhausted := FailedRow(model, LastAttempt(sel.candidates, effective, world, n), 502, est);
      while resp.None?
        invariant sel.cursor == tried <= n
        invariant logs == old(logs) && replies == old(replies) && consumed == old(consumed)
        invariant resp.None? ==> forall k | 0 <= k < tried :: fates[k] == GoesOn
        invariant resp.None? ==> lastAtt == LastAttempt(sel.candidates, effective, world, tried)
        invariant resp.Some? ==>
                    && resp.value.Connected? && lastAtt.Attempt? && 0 < tried
                    && (forall k | 0 <= k < tried - 1 :: fates[k] == GoesOn)
                    && fates[tried - 1] == Ends(StreamRow(model, lastAtt, price, resp.value, est),
                                                Stream(lastAtt.channel.id))
        decreases n - tried, resp.None?
      {
        var next := sel.Next();
        if next.None? {
          break;
        }
        var ch := next.value;
        var w := world(sel.cursor - 1);
        tried := tried + 1;
        LastAttemptStep(sel.candidates, effective, world, tried);
        assert fates[tried - 1] == StreamFateOf(model, AttemptOn(ch, effective), w, est);
        if !w.adapter {
          continue;
        }
        lastAtt := Attempt(ch, UpstreamModel(ch, effective));
        var p, reject := GateModelPrice(w, est);
        if reject.Some? {
          Fail(lastAtt, reject.value, est);
          row, reply := SettledAt(fates, exhausted, tried);
          DebitsAppend(old(logs), row);
          return;
        }
        price := p;
        match w.upstream {
          case NotBuilt => continue;
          case NotReached => continue;
          case Rejected(status) =>
            if Retryable(status) {
              continue;
            }
            FailUpstream(lastAtt, status, est);
            row, reply := SettledAt(fates, exhausted, tried);
            DebitsAppend(old(logs), row);
            return;
          case Connected(_, _, _) =>
            resp := Some(w.upstream);
        }
      }
      if resp.None? {
        FailAllCandidates(lastAtt, est);
        SettledExhausted(fates, exhausted);
        row, reply := exhausted, Failure(502);
        DebitsAppend(old(logs), row);
        return;
      }
      replies := replies + [Stream(lastAtt.channel.id)];
      FinishStream(lastAtt, price, resp.value, est);
      row, reply := SettledAt(fates, exhausted, tried);
      DebitsAppend(old(logs), row);
    }

    /** After the stream: counts, status and the bill, which only a clean stream with a price has. */
    method FinishStream(att: Attempt, price: Option<Price>, c: Connection, est: int)
      requires c.Connected?
      modifies this`logs, this`consumed
      ensures logs == old(logs) + [StreamRow(model, att, price, c, est)]
      ensures consumed == old(consumed) + Debit(StreamRow(model, att, price, c, est))
    {
      hide Cost, Debit;
      var counts := FinalizeUsage(c.usage, c.textLength, est);
      var success := true;
      var http := 200;
      if c.error.Some? {
        success := false;
        if c.error.value.UpstreamFailed? {
          http := Clamp(c.error.value.status);
        }
      }
      var bill: Option<Bill> := None;
      if success && price.Some? {
        var bu := Usage(counts.prompt, counts.completion, counts.total, 0, 0, false);
        if c.usage.Some? {
          bu := bu.(cacheRead := c.usage.value.cacheRead, cacheWrite := c.usage.value.cacheWrite);
        }
        bill := Some(Bill(price, bu));
      }
      Finish(att, success, http, counts, bill);
    }
  }

  function Fates(model: string, candidates: seq<Channel>, effective: string, est: int,
                 world: nat -> World<Upstream>, n: nat): seq<Fate>
    requires n <= |candidates|
  {
    seq(n, k requires 0 <= k < n => FateOf(model, AttemptOn(candidates[k], effective), world(k), est))
  }

  function StreamFates(model: string, candidates: seq<Channel>, effective: string, est: int,
                       world: nat -> World<Connection>, n: nat): seq<Fate>
    requires n <= |candidates|
  {
    seq(n, k requires 0 <= k < n => StreamFateOf(model, AttemptOn(candidates[k], effective), world(k), est))
  }

  lemma SettledAt(fates: seq<Fate>, exhausted: LogRow, tried: nat) returns (row: LogRow, reply: Reply)
    requires 0 < tried <= |fates| && (forall k | 0 <= k < tried - 1 :: fates[k] == GoesOn) && fates[tried - 1].Ends?
    ensures Settled(fates, exhausted, tried, row, reply) && fates[tried - 1] == Ends(row, reply)
  {
    row, reply := fates[tried - 1].row, fates[tried - 1].reply;
  }

  lemma SettledExhausted(fates: seq<Fate>, exhausted: LogRow)
    requires forall k | 0 <= k < |fates| :: fates[k] == GoesOn
    ensures Settled(fates, exhausted, |fates|, exhausted, Failure(502))
  {
  }

  // ------------------------------------------------------------------ what the record guarantees

  /** The channel a reply advertises, if it does. */
  function Advertised(reply: Reply): Option<nat> {
    match reply case Failure(_) => None case Answer(ch) => Some(ch) case Stream(ch) => Some(ch)
  }

  /** A row is honest about a reply: a cost is logged only for a success, a success is answered by
      the logged channel, and a failure with an error status unless a stream had begun. */
  predicate Honest(row: LogRow, reply: Reply) {
    && (row.cost.Some? ==> row.success)
    && (row.success ==> Advertised(reply) == Some(row.channel) && row.http == 200)
    && (Advertised(reply).Some? ==> Advertised(reply) == Some(row.channel))
    && (reply.Failure? ==> !row.success && row.http == reply.http && 400 <= row.http <= 599)
  }

  lemma FateIsHonest(model: string, att: Attempt, w: World<Upstream>, est: int)
    requires att.Attempt? && FateOf(model, att, w, est).Ends?
    ensures Honest(FateOf(model, att, w, est).row, FateOf(model, att, w, est).reply)
    ensures FateOf(model, att, w, est).row.channel == att.channel.id
  {
    hide Cost, UsageTokens;
  }

  lemma StreamFateIsHonest(model: string, att: Attempt, w: World<Connection>, est: int)
    requires att.Attempt? && StreamFateOf(model, att, w, est).Ends?
    ensures Honest(StreamFateOf(model, att, w, est).row, StreamFateOf(model, att, w, est).reply)
    ensures StreamFateOf(model, att, w, est).row.channel == att.channel.id
  {
    hide Cost, FinalizeUsage, StreamBill;
  }

  /** Every settled request is recorded honestly, under the channel tried last; with the budget spent
      it fails with 502 and debits nothing. */
  lemma SettlementIsHonest(model: string, candidates: seq<Channel>, effective: string, est: int,
                           world: nat -> World<Upstream>, n: nat, last: Attempt, tried: nat, row: LogRow, reply: Reply)
    requires n <= |candidates|
    requires Settled(Fates(model, candidates, effective, est, world, n),
                     FailedRow(model, last, 502, est), tried, row, reply)
    ensures Honest(row, reply)
    ensures row.success ==>
              0 < tried <= n && row.channel == candidates[tried - 1].id && world(tried - 1).upstream.Answered?
    ensures row.success <==> row.cost.Some?
  {
    hide Cost, Gate;
    var fates := Fates(model, candidates, effective, est, world, n);
    if 0 < tried <= n && fates[tried - 1].Ends? {
      FateIsHonest(model, AttemptOn(candidates[tried - 1], effective), world(tried - 1), est);
    }
  }

  /** An attempt after which the loop goes on: no adapter, or past the gate a request that could not
      be built or sent, an unreadable answer, or a refusal worth retrying. */
  predicate Survivable(w: World<Upstream>, est: int) {
    !w.adapter ||
    (Gate(w, est).Ok? &&
     match w.upstream
     case Refused(status) => status == 429 || 500 <= status <= 599
     case Answered(_) => false
     case _ => true)
  }

  predicate StreamSurvivable(w: World<Connection>, est: int) {
    !w.adapter ||
    (Gate(w, est).Ok? &&
     match w.upstream
     case Rejected(status) => status == 429 || 500 <= status <= 599
     case Connected(_, _, _) => false
     case _ => true)
  }

  /** The attempts before the one that settled the request were all survivable; if that one was too,
      every candidate of the budget was tried and the request failed with 502. */
  lemma TriedInTurn(model: string, candidates: seq<Channel>, effective: string, est: int,
                    world: nat -> World<Upstream>, n: nat, exhausted: LogRow, tried: nat, row: LogRow, reply: Reply)
    requires n <= |candidates|
    requires Settled(Fates(model, candidates, effective, est, world, n), exhausted, tried, row, reply)
    ensures tried <= n && forall k: nat | k + 1 < tried :: Survivable(world(k), est)
    ensures tried > 0 && Survivable(world(tried - 1), est) ==> tried == n && row == exhausted && reply == Failure(502)
  {
    hide Gate, Settled, RowOf, Cost, UsageTokens;
    var fates := Fates(model, candidates, effective, est, world, n);
    SettledLast(fates, exhausted, tried, row, reply);
    forall k: nat | k + 1 < tried ensures Survivable(world(k), est) {
      PassedBefore(fates, exhausted, tried, row, reply, k);
      assert fates[k] == FateOf(model, AttemptOn(candidates[k], effective), world(k), est);
    }
    if tried > 0 {
      assert fates[tried - 1] == FateOf(model, AttemptOn(candidates[tried - 1], effective), world(tried - 1), est);
    }
  }

  /** The same while a stream is being connected. */
  lemma StreamTriedInTurn(model: string, candidates: seq<Channel>, effective: string, est: int,
                          world: nat -> World<Connection>, n: nat, exhausted: LogRow, tried: nat, row: LogRow,
                          reply: Reply)
    requires n <= |candidates|
    requires Settled(StreamFates(model, candidates, effective, est, world, n), exhausted, tried, row, reply)
    ensures tried <= n && forall k: nat | k + 1 < tried :: StreamSurvivable(world(k), est)
    ensures tried > 0 && StreamSurvivable(world(tried - 1), est) ==>
              tried == n && row == exhausted && reply == Failure(502)
  {
    hide Gate, Settled, RowOf, Cost, StreamRow;
    var fates := StreamFates(model, candidates, effective, est, world, n);
    SettledLast(fates, exhausted, tried, row, reply);
    forall k: nat | k + 1 < tried ensures StreamSurvivable(world(k), est) {
      PassedBefore(fates, exhausted, tried, row, reply, k);
      assert fates[k] == StreamFateOf(model, AttemptOn(candidates[k], effective), world(k), est);
    }
    if tried > 0 {
      var att := AttemptOn(candidates[tried - 1], effective);
      assert fates[tried - 1] == StreamFateOf(model, att, world(tried - 1), est);
    }
  }

  /** The status an upstream's refusal is passed on with: its own if it is an error status, else 502. */
  function PassedOn(status: int): int { if 400 <= status <= 599 then status else 502 }

  /** What follows a refusal past the gate. With 429 or 500 to 599 it is the next candidate of the
      budget, or 502 when there is none; with any other status the request ends there, and row and
      reply carry the status itself, or 502 for one that is no error. */
  lemma RefusalExactly(model: string, candidates: seq<Channel>, effective: string, est: int,
                       world: nat -> World<Upstream>, n: nat, exhausted: LogRow, tried: nat, row: LogRow, reply: Reply,
                       k: nat)
    requires n <= |candidates| && k < tried
    requires Settled(Fates(model, candidates, effective, est, world, n), exhausted, tried, row, reply)
    requires world(k).adapter && Gate(world(k), est).Ok? && world(k).upstream.Refused?
    ensures var s := world(k).upstream.status;
            if s == 429 || 500 <= s <= 599
            then k + 1 < tried || (tried == n == k + 1 && row == exhausted && reply == Failure(502))
            else tried == k + 1 && reply == Failure(PassedOn(s))
                 && row.http == PassedOn(s) && !row.success && row.channel == candidates[k].id
                 && row.counts == Counts(est, 0, est) && row.cost.None?
  {
    hide Gate, Settled, Cost, UsageTokens;
    var fates := Fates(model, candidates, effective, est, world, n);
    SettledLast(fates, exhausted, tried, row, reply);
    assert k < |fates| && fates[k] == FateOf(model, AttemptOn(candidates[k], effective), world(k), est);
    SettledUpTo(fates, exhausted, tried, row, reply, k);
  }

  /** The same while a stream is being connected. */
  lemma StreamRefusalExactly(model: string, candidates: seq<Channel>, effective: string, est: int,
                             world: nat -> World<Connection>, n: nat, exhausted: LogRow, tried: nat, row: LogRow,
                             reply: Reply, k: nat)
    requires n <= |candidates| && k < tried
    requires Settled(StreamFates(model, candidates, effective, est, world, n), exhausted, tried, row, reply)
    requires world(k).adapter && Gate(world(k), est).Ok? && world(k).upstream.Rejected?
    ensures var s := world(k).upstream.status;
            if s == 429 || 500 <= s <= 599
            then k + 1 < tried || (tried == n == k + 1 && row == exhausted && reply == Failure(502))
            else tried == k + 1 && reply == Failure(PassedOn(s))
                 && row.http == PassedOn(s) && !row.success && row.channel == candidates[k].id
                 && row.counts == Counts(est, 0, est) && row.cost.None?
  {
    hide Gate, Settled, Cost, StreamRow;
    var fates := StreamFates(model, candidates, effective, est, world, n);
    SettledLast(fates, exhausted, tried, row, reply);
    assert k < |fates| && fates[k] == StreamFateOf(model, AttemptOn(candidates[k], effective), world(k), est);
    SettledUpTo(fates, exhausted, tried, row, reply, k);
  }

  /** What follows any other outcome: a candidate without an adapter, or one whose request could not be
      built or sent, is gone on from; a rejection by the gate ends the request with its status, and an
      answer ends it with success under that candidate. */
  lemma OutcomeExactly(model: string, candidates: seq<Channel>, effective: string, est: int,
                       world: nat -> World<Upstream>, n: nat, exhausted: LogRow, tried: nat, row: LogRow, reply: Reply,
                       k: nat)
    requires n <= |candidates| && k < tried
    requires Settled(Fates(model, candidates, effective, est, world, n), exhausted, tried, row, reply)
    ensures var w := world(k);
            var gate := Gate(w, est);
            && (!w.adapter || (gate.Ok? && (w.upstream.BuildFails? || w.upstream.CallFails?)) ==>
                  k + 1 < tried || (tried == n == k + 1 && row == exhausted && reply == Failure(502)))
            && (w.adapter && gate.Err? ==>
                  tried == k + 1 && reply == Failure(gate.error) && row.http == gate.error && !row.success
                  && row.channel == candidates[k].id && row.counts == Counts(est, 0, est))
            && (w.adapter && gate.Ok? && w.upstream.Answered? ==>
                  tried == k + 1 && reply == Answer(candidates[k].id) && row.http == 200 && row.success
                  && row.counts == FinalizeUsage(Some(w.upstream.usage), 0, est))
  {
    hide Gate, Settled, Cost, UsageTokens;
    var fates := Fates(model, candidates, effective, est, world, n);
    SettledLast(fates, exhausted, tried, row, reply);
    assert k < |fates| && fates[k] == FateOf(model, AttemptOn(candidates[k], effective), world(k), est);
    SettledUpTo(fates, exhausted, tried, row, reply, k);
  }

  /** The same of a stream: once connected it decides the request. One that ends well is logged as a
      success, one that breaks off keeps its counts and has the status 200 that was sent, or the
      upstream's. */
  lemma StreamOutcomeExactly(model: string, candidates: seq<Channel>, effective: string, est: int,
                             world: nat -> World<Connection>, n: nat, exhausted: LogRow, tried: nat, row: LogRow,
                             reply: Reply, k: nat)
    requires n <= |candidates| && k < tried
    requires Settled(StreamFates(model, candidates, effective, est, world, n), exhausted, tried, row, reply)
    ensures var w := world(k);
            var gate := Gate(w, est);
            && (!w.adapter || (gate.Ok? && (w.upstream.NotBuilt? || w.upstream.NotReached?)) ==>
                  k + 1 < tried || (tried == n == k + 1 && row == exhausted && reply == Failure(502)))
            && (w.adapter && gate.Err? ==>
                  tried == k + 1 && reply == Failure(gate.error) && row.http == gate.error && !row.success
                  && row.channel == candidates[k].id && row.counts == Counts(est, 0, est))
            && (w.adapter && gate.Ok? && w.upstream.Connected? ==>
                  var c := w.upstream;
                  && tried == k + 1 && reply == Stream(candidates[k].id)
                  && row.counts == FinalizeUsage(c.usage, c.textLength, est)
                  && (row.success <==> c.error.None?) && (row.cost.Some? <==> c.error.None? && gate.value.Some?)
                  && row.http == (if c.error.Some? && c.error.value.UpstreamFailed?
                                  then PassedOn(c.error.value.status) else 200))
  {
    hide Gate, Settled, Cost, FinalizeUsage, StreamBill;
    var fates := StreamFates(model, candidates, effective, est, world, n);
    SettledLast(fates, exhausted, tried, row, reply);
    assert k < |fates| && fates[k] == StreamFateOf(model, AttemptOn(candidates[k], effective), world(k), est);
    SettledUpTo(fates, exhausted, tried, row, reply, k);
  }

  /** A candidate that was tried settled the request or was gone on from. */
  lemma SettledUpTo(fates: seq<Fate>, exhausted: LogRow, tried: nat, row: LogRow, reply: Reply, k: nat)
    requires Settled(fates, exhausted, tried, row, reply) && k < tried && k < |fates|
    ensures fates[k] == GoesOn ==> k + 1 < tried || (tried == |fates| && row == exhausted && reply == Failure(502))
    ensures fates[k].Ends? ==> tried == k + 1 && fates[k] == Ends(row, reply)
  {
  }

  /** A row names the channel it was settled on and the model sent there: the channel's own name for the
      effective model if it maps it to one, else the effective model, else, if that is empty, the
      requested one. */
  lemma LoggedModel(model: string, ch: Channel, effective: string, w: World<Upstream>, est: int)
    requires FateOf(model, AttemptOn(ch, effective), w, est).Ends?
    ensures var row := FateOf(model, AttemptOn(ch, effective), w, est).row;
            && row.channel == ch.id
            && (effective in ch.mapping && ch.mapping[effective] != "" ==> row.upstream == ch.mapping[effective])
            && (!(effective in ch.mapping && ch.mapping[effective] != "") ==>
                  row.upstream == if effective != "" then effective else model)
  {
    hide Cost, Gate, UsageTokens;
  }

  lemma StreamLoggedModel(model: string, ch: Channel, effective: string, w: World<Connection>, est: int)
    requires StreamFateOf(model, AttemptOn(ch, effective), w, est).Ends?
    ensures var row := StreamFateOf(model, AttemptOn(ch, effective), w, est).row;
            && row.channel == ch.id
            && (effective in ch.mapping && ch.mapping[effective] != "" ==> row.upstream == ch.mapping[effective])
            && (!(effective in ch.mapping && ch.mapping[effective] != "") ==>
                  row.upstream == if effective != "" then effective else model)
  {
    hide Cost, Gate, FinalizeUsage, StreamBill;
  }

  lemma SettledLast(fates: seq<Fate>, exhausted: LogRow, tried: nat, row: LogRow, reply: Reply)
    requires Settled(fates, exhausted, tried, row, reply)
    ensures tried <= |fates|
    ensures tried > 0 && fates[tried - 1] == GoesOn ==> tried == |fates| && row == exhausted && reply == Failure(502)
  {
  }

  lemma StreamSettlementIsHonest(model: string, candidates: seq<Channel>, effective: string, est: int,
                                 world: nat -> World<Connection>, n: nat, last: Attempt, tried: nat, row: LogRow,
                                 reply: Reply)
    requires n <= |candidates|
    requires Settled(StreamFates(model, candidates, effective, est, world, n),
                     FailedRow(model, last, 502, est), tried, row, reply)
    ensures Honest(row, reply)
    ensures row.success ==>
              && 0 < tried <= n && row.channel == candidates[tried - 1].id
              && world(tried - 1).upstream.Connected? && world(tried - 1).upstream.error.None?
  {
    hide Cost, Gate, FinalizeUsage, StreamBill;
    var fates := StreamFates(model, candidates, effective, est, world, n);
    if 0 < tried <= n && fates[tried - 1].Ends? {
      StreamFateIsHonest(model, AttemptOn(candidates[tried - 1], effective), world(tried - 1), est);
    }
  }

  /** A debited answer cost exactly the ceiling of its usage at the price the gate found. */
  lemma DebitIsTheCeiling(model: string, att: Attempt, w: World<Upstream>, est: int)
    requires att.Attempt? && w.adapter && w.upstream.Answered? && Gate(w, est).Ok? && Gate(w, est).value.Some?
    requires PricesFit(Gate(w, est).value.value) && CountsFit(w.upstream.usage)
    ensures var row, p, u := FateOf(model, att, w, est).row, Gate(w, est).value.value, w.upstream.usage;
            && row.cost.Some? && Debit(row) == (if NothingPriced(p, u) then [] else [row.cost.value])
            && (row.cost.value - 1) * PER_MILLION < Numerator(p, u) <= row.cost.value * PER_MILLION
  {
    hide Cost, Numerator, Gate;
    var p, u := Gate(w, est).value.value, w.upstream.usage;
    CostIsCeiling(p, u);
    OnlyNothingIsFree(p, u);
  }

  /** What is free: an answered request debits nothing exactly when its model is unpriced or its usage
      comes to nothing at that price. */
  lemma FreeExactly(model: string, att: Attempt, w: World<Upstream>, est: int)
    requires att.Attempt? && w.adapter && w.upstream.Answered? && Gate(w, est).Ok?
    requires Gate(w, est).value.Some? ==> PricesFit(Gate(w, est).value.value) && CountsFit(w.upstream.usage)
    ensures var price := Gate(w, est).value;
            Debit(FateOf(model, att, w, est).row) == []
            <==> price.None? || NothingPriced(price.value, w.upstream.usage)
  {
    hide Numerator, Gate;
    var price := Gate(w, est).value;
    if price.Some? {
      DebitIsTheCeiling(model, att, w, est);
    }
  }

  /** The same of a stream, by the usage it is billed for; one that broke off is always free. */
  lemma StreamFreeExactly(model: string, att: Attempt, price: Option<Price>, c: Connection, est: int)
    requires c.Connected?
    requires price.Some? ==> PricesFit(price.value) && CountsFit(StreamBill(c.usage, c.textLength, est))
    ensures Debit(StreamRow(model, att, price, c, est)) == []
            <==> c.error.Some? || price.None? || NothingPriced(price.value, StreamBill(c.usage, c.textLength, est))
  {
    hide Cost, Numerator, StreamBill, FinalizeUsage;
    var u := StreamBill(c.usage, c.textLength, est);
    if price.Some? && c.error.None? {
      CostIsCeiling(price.value, u);
      OnlyNothingIsFree(price.value, u);
    }
  }

  /** The usage that a row itself records, given the cache counts logged beside it. */
  function RowUsage(row: LogRow, cacheRead: int, cacheWrite: int): Usage {
    Usage(row.counts.prompt, row.counts.completion, row.counts.total, cacheRead, cacheWrite, false)
  }

  /** An answer is billed for the usage reported, but logged with the estimate in place of a prompt that
      was not: the row costs what its own counts come to exactly when the prompt was reported, or there
      is no estimate, or pricing the estimate stays within what rounding up had added. */
  lemma LoggedCostExactly(model: string, att: Attempt, w: World<Upstream>, est: int)
    requires att.Attempt? && w.adapter && w.upstream.Answered? && Gate(w, est).Ok? && Gate(w, est).value.Some?
    requires PricesFit(Gate(w, est).value.value) && CountsFit(w.upstream.usage) && est < 0x8000_0000
    ensures var row, p, u := FateOf(model, att, w, est).row, Gate(w, est).value.value, w.upstream.usage;
            && row.cost.Some? && row.cost.value <= Cost(Some(p), RowUsage(row, u.cacheRead, u.cacheWrite))
            && (row.cost.value == Cost(Some(p), RowUsage(row, u.cacheRead, u.cacheWrite))
                <==> u.prompt != 0 || est <= 0 || est * p.input <= row.cost.value * PER_MILLION - Numerator(p, u))
  {
    hide Cost, Gate;
    var row, p, u := FateOf(model, att, w, est).row, Gate(w, est).value.value, w.upstream.usage;
    var logged := RowUsage(row, u.cacheRead, u.cacheWrite);
    CostIsCeiling(p, u);
    CostIsCeiling(p, logged);
    if u.prompt == 0 && est > 0 {
      assert Numerator(p, logged) == Numerator(p, u) + est * p.input;
      NotNegative(est, p.input);
    }
  }

  lemma NotNegative(a: int, b: int)
    requires a >= 0 && b >= 0
    ensures a * b >= 0
  {
  }

  /** It happens: ten tokens reported without their prompt are billed 150 micro-dollars and logged with
      a prompt of 1000, for which the price is 3150. */
  lemma LoggedCostCanBeLow(model: string, att: Attempt)
    requires att.Attempt?
    ensures var p := Price(3_000_000, 15_000_000, 0, 0);
            var w := World(true, Found(Some(p)), Found(-1), Answered(Usage(0, 10, 10, 0, 0, true)));
            var row := FateOf(model, att, w, 1000).row;
            row.cost == Some(150) && row.counts.prompt == 1000 && Cost(Some(p), RowUsage(row, 0, 0)) == 3150
  {
  }

  /** A stream's row always costs exactly what its own counts come to. */
  lemma StreamLoggedCost(model: string, att: Attempt, price: Option<Price>, c: Connection, est: int)
    requires c.Connected? && c.error.None? && price.Some?
    ensures var row := StreamRow(model, att, price, c, est);
            var read, write := if c.usage.Some? then c.usage.value.cacheRead else 0,
                               if c.usage.Some? then c.usage.value.cacheWrite else 0;
            row.cost == Some(Cost(price, RowUsage(row, read, write)))
  {
    hide Cost;
  }

  /** A passing gate leaves room: where the balance is bounded, an answer whose usage is no more than
      the estimated prompt is never debited more than was left. */
  lemma WithinTheEstimate(model: string, att: Attempt, w: World<Upstream>, est: int, p: Price)
    requires att.Attempt? && w.adapter && w.upstream.Answered? && w.price == Found(Some(p)) && PricesFit(p)
    requires w.remaining.Found? && w.remaining.value >= 0
    requires var u := w.upstream.usage;
             CountsFit(u) && 0 <= u.prompt <= est < 0x8000_0000 && u.completion == u.cacheRead == u.cacheWrite == 0
    ensures Gate(w, est).Ok? ==>
              var row := FateOf(model, att, w, est).row; row.cost.Some? && row.cost.value <= w.remaining.value
  {
    hide Cost, Gate;
    GateKeepsTheBalance(w, est);
    CostIsMonotone(p, w.upstream.usage, Usage(est, 0, 0, 0, 0, false));
  }

  /** The gate: an attempt goes upstream only if the estimated cost of its prompt is within the
      balance left, or the balance is unlimited; it is rejected with 402 if not, and with 500 if that
      cannot be found out. */
  lemma GateKeepsTheBalance<T>(w: World<T>, est: int)
    ensures Gate(w, est).Ok? <==>
              && w.price.Found? && w.remaining.Found?
              && (w.remaining.value < 0 || Cost(w.price.value, Usage(est, 0, 0, 0, 0, false)) <= w.remaining.value)
    ensures Gate(w, est).Ok? ==> Gate(w, est).value == w.price.value
    ensures Gate(w, est).Err? ==> Gate(w, est).error == if w.price.Found? && w.remaining.Found? then 402 else 500
  {
  }
}

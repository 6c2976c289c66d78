/** The provider-independent stream chunk (server/internal/adapter/adapter.go) and the Bedrock stream
    parser that produces it (server/internal/adapter/bedrock_adapter.go). */
module StreamChunks {
  import opened Prelude
  import opened UsageAccounting
  import opened EventStream

  datatype StopReason = Unknown | EndTurn | MaxTokens | StopSequence | ToolUse | ContentFilter

  datatype ToolDelta = ToolDelta(index: int, id: string, name: string, args: string)

  /** fatal carries the HTTP status of a mid-stream upstream error. */
  datatype Chunk = Chunk(delta: string, stop: StopReason, usage: Option<Usage>, done: bool, fatal: Option<int>,
                         tool: Option<ToolDelta>)

  const NO_CHUNK: Chunk := Chunk("", Unknown, None, false, None, None)

  /** What a parser says of one event: malformed, or a chunk and whether it is worth showing. */
  datatype Parsed = Skip | Parsed(chunk: Chunk, meaningful: bool)

  // ------------------------------------------------------------------ stop reasons

  function BedrockStopToUnified(s: string): StopReason {
    if s == "end_turn" then EndTurn
    else if s == "max_tokens" then MaxTokens
    else if s == "stop_sequence" then StopSequence
    else if s == "tool_use" then ToolUse
    else if s == "content_filtered" || s == "guardrail_intervened" then ContentFilter
    else if s == "" then Unknown
    else EndTurn
  }

  function StopToBedrock(s: StopReason): string {
    match s
    case EndTurn => "end_turn"
    case MaxTokens => "max_tokens"
    case StopSequence => "stop_sequence"
    case ToolUse => "tool_use"
    case ContentFilter => "content_filtered"
    case Unknown => "end_turn"
  }

  function StopToAnthropic(s: StopReason): string {
    match s
    case EndTurn => "end_turn"
    case MaxTokens => "max_tokens"
    case StopSequence => "stop_sequence"
    case ToolUse => "tool_use"
    case ContentFilter => "end_turn"
    case Unknown => "end_turn"
  }

  function OrEndTurn(s: StopReason): StopReason { if s == Unknown then EndTurn else s }

  /** The words the three vocabularies have for each stop reason, and what Bedrock's mean. */
  lemma StopWords(s: string)
    ensures StopToAnthropic(EndTurn) == "end_turn" && StopToAnthropic(MaxTokens) == "max_tokens"
            && StopToAnthropic(StopSequence) == "stop_sequence" && StopToAnthropic(ToolUse) == "tool_use"
            && StopToAnthropic(ContentFilter) == "end_turn" && StopToAnthropic(Unknown) == "end_turn"
    ensures StopToBedrock(EndTurn) == "end_turn" && StopToBedrock(MaxTokens) == "max_tokens"
            && StopToBedrock(StopSequence) == "stop_sequence" && StopToBedrock(ToolUse) == "tool_use"
            && StopToBedrock(ContentFilter) == "content_filtered" && StopToBedrock(Unknown) == "end_turn"
    ensures (BedrockStopToUnified(s) == MaxTokens <==> s == "max_tokens")
            && (BedrockStopToUnified(s) == StopSequence <==> s == "stop_sequence")
            && (BedrockStopToUnified(s) == ToolUse <==> s == "tool_use")
            && (BedrockStopToUnified(s) == ContentFilter <==> s == "content_filtered" || s == "guardrail_intervened")
            && (BedrockStopToUnified(s) == Unknown <==> s == "")
  {
  }

  // ------------------------------------------------------------------ Bedrock event bodies

  datatype ToolObject = ToolObject(id: string, name: string, input: string)

  datatype BedrockUsage = BedrockUsage(input: int, output: int, total: int, cacheRead: int, cacheWrite: int)

  /** The fields of an event body that the parser reads; absent JSON fields take Go's zero values. */
  datatype Body = Body(index: int, startTool: Option<ToolObject>, deltaText: string, deltaTool: Option<ToolObject>,
                       text: string, tool: Option<ToolObject>, stopReason: string, usage: Option<BedrockUsage>)

  const NO_BODY: Body := Body(0, None, "", None, "", None, "", None)

  /** An event without a type header names its kind by an outer key; a key is absent, or present with
      the text, the stop reason or the usage inside it. */
  datatype Wrapped = Wrapped(delta: Option<string>, stop: Option<string>, metadata: Option<Option<BedrockUsage>>)

  /** JSON marshalling, unmarshalling into the structure an event type selects or into the wrapped
      one, and the test for a blank payload. */
  datatype Json = Json(encode: Body -> Bytes, decode: (Bytes, Bytes) -> Option<Body>,
                       unwrap: Bytes -> Option<Wrapped>, blank: Bytes -> bool)

  /** Unmarshalling reads back what marshalling wrote, which is never blank. */
  ghost predicate Lawful(json: Json) {
    forall eventType, body :: json.decode(eventType, json.encode(body)) == Some(body) && !json.blank(json.encode(body))
  }

  const MESSAGE_START: Bytes := Ascii("messageStart")
  const BLOCK_START: Bytes := Ascii("contentBlockStart")
  const BLOCK_DELTA: Bytes := Ascii("contentBlockDelta")
  const BLOCK_STOP: Bytes := Ascii("contentBlockStop")
  const MESSAGE_STOP: Bytes := Ascii("messageStop")
  const METADATA: Bytes := Ascii("metadata")
  const EXCEPTION: Bytes := Ascii("Exception")

  predicate IsException(eventType: Bytes) {
    |eventType| >= |EXCEPTION| && eventType[|eventType| - |EXCEPTION|..] == EXCEPTION
  }

  function ExceptionStatus(eventType: Bytes): int {
    if eventType == Ascii("throttlingException") then 429
    else if eventType == Ascii("modelStreamErrorException") || eventType == Ascii("serviceUnavailableException")
            || eventType == Ascii("modelTimeoutException") then 503
    else if eventType == Ascii("validationException") then 400
    else 500
  }

  function Normalize(u: Usage): Usage {
    if u.total == 0 then u.(total := u.prompt + u.completion) else u
  }

  function UsageFromBedrock(u: BedrockUsage): Usage {
    Normalize(Usage(u.input, u.output, u.total, u.cacheRead, u.cacheWrite, true))
  }

  function Positive(n: int): int { if n > 0 then n else 0 }

  function BedrockFromUsage(u: Usage): BedrockUsage {
    BedrockUsage(u.prompt, u.completion, u.total, Positive(u.cacheRead), Positive(u.cacheWrite))
  }

  function Meaningful(c: Chunk): bool {
    c.delta != "" || c.stop != Unknown || c.usage.Some? || c.done
  }

  /** parseWrappedStreamEvent: the first key that is there decides. */
  function ParseWrapped(json: Json, payload: Bytes): Parsed {
    var ev := json.unwrap(payload);
    if ev.None? then Skip
    else if ev.value.delta.Some? then
      var c := NO_CHUNK.(delta := ev.value.delta.value);
      Parsed(c, Meaningful(c))
    else if ev.value.stop.Some? then
      Parsed(NO_CHUNK.(stop := BedrockStopToUnified(ev.value.stop.value), done := true), true)
    else if ev.value.metadata.Some? && ev.value.metadata.value.Some? then
      Parsed(NO_CHUNK.(usage := Some(UsageFromBedrock(ev.value.metadata.value.value)), done := true), true)
    else Parsed(NO_CHUNK, false)
  }

  /** ParseStreamChunk of the Bedrock adapter. */
  function ParseBedrock(json: Json, f: Frame): Parsed {
    if json.blank(f.payload) then Parsed(NO_CHUNK, false)
    else if f.eventType == [] then ParseWrapped(json, f.payload)
    else if IsException(f.eventType) then
      Parsed(NO_CHUNK.(done := true, fatal := Some(ExceptionStatus(f.eventType))), true)
    else
      var body := json.decode(f.eventType, f.payload);
      if f.eventType == BLOCK_START then
        if body.None? then Parsed(NO_CHUNK, false)
        else
          var tool := if body.value.startTool.Some? then body.value.startTool else body.value.tool;
          if tool.Some? then
            Parsed(NO_CHUNK.(tool := Some(ToolDelta(body.value.index, tool.value.id, tool.value.name, ""))), true)
          else Parsed(NO_CHUNK, false)
      else if f.eventType == BLOCK_DELTA then
        if body.None? then Skip
        else
          var tool := if body.value.deltaTool.Some? then body.value.deltaTool else body.value.tool;
          if tool.Some? then
            Parsed(NO_CHUNK.(tool := Some(ToolDelta(body.value.index, "", "", tool.value.input))), true)
          else
            var c := NO_CHUNK.(delta := if body.value.deltaText != "" then body.value.deltaText else body.value.text);
            Parsed(c, Meaningful(c))
      else if f.eventType == MESSAGE_STOP then
        if body.None? then Skip
        else Parsed(NO_CHUNK.(stop := BedrockStopToUnified(body.value.stopReason), done := true), true)
      else if f.eventType == METADATA then
        if body.None? then Skip
        else
          var usage := if body.value.usage.Some? then Some(UsageFromBedrock(body.value.usage.value)) else None;
          Parsed(NO_CHUNK.(usage := usage, done := true), true)
      else Parsed(NO_CHUNK, false)
  }

  /** The parser never marks a chunk with text or a tool delta as not worth showing, so nothing that
      is counted toward the completion stays unshown. */
  lemma BedrockTextIsMeaningful(json: Json, f: Frame)
    ensures var p := ParseBedrock(json, f);
            p.Parsed? && (p.chunk.delta != "" || p.chunk.tool.Some?) ==>
              p.meaningful && !(p.chunk.delta != "" && p.chunk.tool.Some?)
  {
  }

  lemma AsciiAt(s: string, k: nat)
    requires k < |s|
    ensures Ascii(s)[k] == s[k] as int % 256
  {
  }

  /** The event types the gateway emits are distinct, and none of them names an exception. */
  lemma EventTypes()
    ensures BLOCK_START != BLOCK_DELTA
    ensures |MESSAGE_START| == 12 && |BLOCK_START| == |BLOCK_DELTA| == 17
    ensures |BLOCK_STOP| == 16 && |MESSAGE_STOP| == 11 && |METADATA| == 8
    ensures forall t | t in {MESSAGE_START, BLOCK_START, BLOCK_DELTA, BLOCK_STOP, MESSAGE_STOP, METADATA} ::
              !IsException(t)
  {
    AsciiAt("contentBlockStart", 12);
    AsciiAt("contentBlockDelta", 12);
    AsciiAt("Exception", 0);
    AsciiAt("messageStart", 3);
    AsciiAt("contentBlockStart", 8);
    AsciiAt("contentBlockDelta", 8);
    AsciiAt("contentBlockStop", 7);
    AsciiAt("messageStop", 2);
    assert EXCEPTION[0] == 69;
    assert MESSAGE_START[3..][0] == 115;
    assert BLOCK_START[8..][0] == 108 && BLOCK_DELTA[8..][0] == 108 && BLOCK_STOP[7..][0] == 66;
    assert MESSAGE_STOP[2..][0] == 115;
  }

  /** The nested shape of the Converse specification and the flat one of the live endpoint parse to
      the same chunk, the nested one winning when both are there. */
  lemma BothShapesParse(json: Json, body: Body, t: ToolObject, text: string)
    requires Lawful(json)
    ensures var nested, flat := body.(startTool := Some(t)), body.(startTool := None, tool := Some(t));
            ParseBedrock(json, Frame(BLOCK_START, json.encode(nested)))
            == ParseBedrock(json, Frame(BLOCK_START, json.encode(flat)))
            == Parsed(NO_CHUNK.(tool := Some(ToolDelta(body.index, t.id, t.name, ""))), true)
    ensures var nested, flat := body.(deltaTool := Some(t)), body.(deltaTool := None, tool := Some(t));
            ParseBedrock(json, Frame(BLOCK_DELTA, json.encode(nested)))
            == ParseBedrock(json, Frame(BLOCK_DELTA, json.encode(flat)))
            == Parsed(NO_CHUNK.(tool := Some(ToolDelta(body.index, "", "", t.input))), true)
    ensures body.deltaTool.None? && body.tool.None? && text != "" ==>
              var nested, flat := body.(deltaText := text), body.(deltaText := "", text := text);
              ParseBedrock(json, Frame(BLOCK_DELTA, json.encode(nested)))
              == ParseBedrock(json, Frame(BLOCK_DELTA, json.encode(flat)))
              == Parsed(NO_CHUNK.(delta := text), true)
  {
    hide IsException, ExceptionStatus, Ascii;
    EventTypes();
    LawAt(json, BLOCK_START, body.(startTool := Some(t)));
    LawAt(json, BLOCK_START, body.(startTool := None, tool := Some(t)));
    LawAt(json, BLOCK_DELTA, body.(deltaTool := Some(t)));
    LawAt(json, BLOCK_DELTA, body.(deltaTool := None, tool := Some(t)));
    LawAt(json, BLOCK_DELTA, body.(deltaText := text));
    LawAt(json, BLOCK_DELTA, body.(deltaText := "", text := text));
  }

  lemma LawAt(json: Json, eventType: Bytes, body: Body)
    requires Lawful(json)
    ensures json.decode(eventType, json.encode(body)) == Some(body) && !json.blank(json.encode(body))
  {
  }

  /** An event is fatal exactly when its type ends in Exception and its body is not blank, whatever
      the body says, and then carries an error status. */
  lemma FatalExactly(json: Json, f: Frame)
    ensures IsFatal(ParseBedrock(json, f)) <==> !json.blank(f.payload) && IsException(f.eventType)
    ensures IsFatal(ParseBedrock(json, f)) ==> 400 <= ParseBedrock(json, f).chunk.fatal.value <= 599
  {
    hide Ascii, BedrockStopToUnified, UsageFromBedrock;
    assert |EXCEPTION| == 9;
  }

  /** It happens that an exception passes for nothing: one without a body. */
  lemma BlankExceptionIsIgnored(json: Json)
    requires json.blank([])
    ensures IsException(Ascii("validationException"))
    ensures ParseBedrock(json, Frame(Ascii("validationException"), [])) == Parsed(NO_CHUNK, false)
  {
    var t := Ascii("validationException");
    forall k | 0 <= k < 9 ensures t[10..][k] == EXCEPTION[k] {
      AsciiAt("validationException", 10 + k);
      AsciiAt("Exception", k);
    }
    assert t[10..] == EXCEPTION;
  }

  lemma EndsInException(before: string)
    ensures IsException(Ascii(before + "Exception"))
  {
    var t := Ascii(before + "Exception");
    forall k | 0 <= k < 9 ensures t[|before|..][k] == EXCEPTION[k] {
      AsciiAt(before + "Exception", |before| + k);
      AsciiAt("Exception", k);
    }
    assert t[|before|..] == EXCEPTION;
  }

  lemma ExceptionNames()
    ensures forall s | s in {"throttlingException", "modelStreamErrorException", "serviceUnavailableException",
                             "modelTimeoutException", "validationException"} :: IsException(Ascii(s))
    ensures Ascii("throttlingException") != Ascii("validationException")
  {
    hide Ascii, IsException;
    assert "throttling" + "Exception" == "throttlingException" && "validation" + "Exception" == "validationException";
    assert "modelStreamError" + "Exception" == "modelStreamErrorException";
    assert "serviceUnavailable" + "Exception" == "serviceUnavailableException";
    assert "modelTimeout" + "Exception" == "modelTimeoutException";
    EndsInException("throttling");
    EndsInException("validation");
    EndsInException("modelStreamError");
    EndsInException("serviceUnavailable");
    EndsInException("modelTimeout");
    AsciiAt("throttlingException", 0);
    AsciiAt("validationException", 0);
  }

  /** The status an exception with a body is reported with, by its name. */
  lemma ExceptionMeaning(json: Json, name: string, payload: Bytes)
    requires !json.blank(payload) && IsException(Ascii(name))
    ensures var status := ParseBedrock(json, Frame(Ascii(name), payload)).chunk.fatal;
            && (name == "throttlingException" ==> status == Some(429))
            && (name in {"modelStreamErrorException", "serviceUnavailableException", "modelTimeoutException"} ==>
                  status == Some(503))
            && (name == "validationException" ==> status == Some(400))
            && var named := {Ascii("throttlingException"), Ascii("modelStreamErrorException"),
                             Ascii("serviceUnavailableException"), Ascii("modelTimeoutException"),
                             Ascii("validationException")};
               (Ascii(name) !in named ==> status == Some(500))
  {
    hide Ascii, IsException, BedrockStopToUnified, UsageFromBedrock;
    ExceptionNames();
    NotEmpty(Ascii(name));
  }

  lemma NotEmpty(eventType: Bytes)
    ensures IsException(eventType) ==> eventType != []
  {
  }

  /** The usage a metadata event reports, its total filled in from the parts when missing. */
  lemma MetadataMeaning(json: Json, body: Body)
    requires Lawful(json) && body.usage.Some?
    ensures var u, chunk := body.usage.value, ParseBedrock(json, Frame(METADATA, json.encode(body))).chunk;
            && chunk.usage.Some? && chunk.done && chunk.usage.value.upstream
            && chunk.usage.value.prompt == u.input && chunk.usage.value.completion == u.output
            && chunk.usage.value.cacheRead == u.cacheRead && chunk.usage.value.cacheWrite == u.cacheWrite
            && chunk.usage.value.total == if u.total == 0 then u.input + u.output else u.total
  {
    hide IsException, ExceptionStatus, Ascii, BedrockStopToUnified;
    EventTypes();
    LawAt(json, METADATA, body);
  }

  /** A wrapped event and the typed one that carries the same parse to the same chunk. */
  lemma WrappedAsTyped(json: Json, payload: Bytes)
    requires Lawful(json) && !json.blank(payload) && json.unwrap(payload).Some?
    ensures var w, p := json.unwrap(payload).value, ParseBedrock(json, Frame([], payload));
            && (w.delta.Some? ==>
                  p == ParseBedrock(json, Frame(BLOCK_DELTA, json.encode(NO_BODY.(deltaText := w.delta.value)))))
            && (w.delta.None? && w.stop.Some? ==>
                  p == ParseBedrock(json, Frame(MESSAGE_STOP, json.encode(NO_BODY.(stopReason := w.stop.value)))))
            && (w.delta.None? && w.stop.None? && w.metadata.Some? && w.metadata.value.Some? ==>
                  p == ParseBedrock(json, Frame(METADATA, json.encode(NO_BODY.(usage := w.metadata.value)))))
  {
    hide IsException, ExceptionStatus, Ascii, BedrockStopToUnified, UsageFromBedrock;
    EventTypes();
    var w := json.unwrap(payload).value;
    if w.delta.Some? {
      LawAt(json, BLOCK_DELTA, NO_BODY.(deltaText := w.delta.value));
    } else if w.stop.Some? {
      LawAt(json, MESSAGE_STOP, NO_BODY.(stopReason := w.stop.value));
    } else if w.metadata.Some? {
      LawAt(json, METADATA, NO_BODY.(usage := w.metadata.value));
    }
  }

  // ------------------------------------------------------------------ what the pump keeps of a stream

  /** The totals a pump accumulates. */
  datatype Account = Account(usage: Option<Usage>, completion: string, stop: StopReason)

  const NO_ACCOUNT: Account := Account(None, "", Unknown)

  function Count(a: Account, c: Chunk): Account {
    Account(if c.usage.Some? then Some(Merge(a.usage, c.usage.value)) else a.usage,
            a.completion + c.delta,
            if c.stop != Unknown then c.stop else a.stop)
  }

  function CountAll(cs: seq<Chunk>): Account {
    if cs == [] then NO_ACCOUNT else Count(CountAll(cs[..|cs| - 1]), cs[|cs| - 1])
  }

  predicate IsFatal(p: Parsed) { p.Parsed? && p.chunk.fatal.Some? }

  /** The chunks a pump takes in: every well-formed one up to the first fatal one. */
  function Live(ps: seq<Parsed>): seq<Chunk> {
    if ps == [] then []
    else
      var before, last := Live(ps[..|ps| - 1]), ps[|ps| - 1];
      if last.Skip? || IsFatal(last) || (exists p | p in ps[..|ps| - 1] :: IsFatal(p)) then before
      else before + [last.chunk]
  }

  predicate Forwards(p: Parsed) { p.Parsed? && (p.meaningful || p.chunk.done) }

  /** Those of them that are rendered. */
  function Shown(ps: seq<Parsed>): seq<Chunk> {
    if ps == [] then []
    else
      var before, last := Shown(ps[..|ps| - 1]), ps[|ps| - 1];
      if !Forwards(last) || IsFatal(last) || (exists p | p in ps[..|ps| - 1] :: IsFatal(p)) then before
      else before + [last.chunk]
  }

  function Text(cs: seq<Chunk>): string {
    if cs == [] then "" else Text(cs[..|cs| - 1]) + cs[|cs| - 1].delta
  }

  /** The last stop reason that is known. */
  function LastStop(cs: seq<Chunk>): StopReason {
    if cs == [] then Unknown
    else if cs[|cs| - 1].stop != Unknown then cs[|cs| - 1].stop
    else LastStop(cs[..|cs| - 1])
  }

  function Usages(cs: seq<Chunk>): seq<Usage> {
    if cs == [] then []
    else
      var before, last := Usages(cs[..|cs| - 1]), cs[|cs| - 1];
      if last.usage.Some? then before + [last.usage.value] else before
  }

  /** The totals are the concatenated text, the last known stop reason and the folded usage. */
  lemma {:induction false} CountMeaning(cs: seq<Chunk>)
    ensures CountAll(cs) == Account(Fold(Usages(cs)), Text(cs), LastStop(cs))
  {
    hide Merge, Fold;
    if cs == [] {
      FoldNothing();
    } else {
      var init, last := cs[..|cs| - 1], cs[|cs| - 1];
      CountMeaning(init);
      if last.usage.Some? {
        FoldSnoc(Usages(init), last.usage.value);
      }
    }
  }

  lemma FoldNothing()
    ensures Fold([]) == None
  {
  }

  lemma FoldSnoc(us: seq<Usage>, u: Usage)
    ensures Fold(us + [u]) == Some(Merge(Fold(us), u))
  {
    hide Merge;
    assert (us + [u])[..|us|] == us;
  }

  lemma {:induction false} TextAppends(a: seq<Chunk>, b: seq<Chunk>)
    ensures Text(a + b) == Text(a) + Text(b)
  {
    if b == [] {
      assert a + b == a;
    } else {
      var init, whole := b[..|b| - 1], a + b;
      assert whole[..|whole| - 1] == a + init && whole[|whole| - 1] == b[|b| - 1];
      TextAppends(a, init);
    }
  }

  /** The chunks taken in but not rendered. */
  function Dropped(ps: seq<Parsed>): seq<Chunk> {
    if ps == [] then []
    else
      var before, last := Dropped(ps[..|ps| - 1]), ps[|ps| - 1];
      if last.Skip? || Forwards(last) || IsFatal(last) || (exists p | p in ps[..|ps| - 1] :: IsFatal(p)) then before
      else before + [last.chunk]
  }

  /** All text taken in is rendered exactly when no chunk that is taken in and dropped carries text. */
  lemma {:induction false} TextIsShownExactly(ps: seq<Parsed>)
    ensures |Text(Shown(ps))| <= |Text(Live(ps))|
    ensures Text(Shown(ps)) == Text(Live(ps)) <==> forall c | c in Dropped(ps) :: c.delta == ""
  {
    hide Text;
    if ps == [] {
      TextOfNothing();
    } else {
      var init, last := ps[..|ps| - 1], ps[|ps| - 1];
      TextIsShownExactly(init);
      if last.Parsed? {
        TextSnoc(Live(init), last.chunk);
        TextSnoc(Shown(init), last.chunk);
        SameSuffix(Text(Shown(init)), Text(Live(init)), last.chunk.delta);
        assert last.chunk in Dropped(init) + [last.chunk];
      }
    }
  }

  lemma TextOfNothing()
    ensures Text([]) == ""
  {
  }

  lemma TextSnoc(cs: seq<Chunk>, c: Chunk)
    ensures Text(cs + [c]) == Text(cs) + c.delta
  {
    assert (cs + [c])[..|cs|] == cs;
  }

  lemma SameSuffix(a: string, b: string, c: string)
    ensures a + c == b + c <==> a == b
  {
    if a + c == b + c {
      assert |a| == |b|;
      assert a == (a + c)[..|a|] && b == (b + c)[..|b|];
    }
  }

  /** Nothing is dropped when every event with text is marked as meaningful, as the Bedrock parser does. */
  lemma {:induction false} NothingWithTextDropped(ps: seq<Parsed>)
    requires forall p | p in ps :: p.Parsed? && p.chunk.delta != "" ==> Forwards(p)
    ensures forall c | c in Dropped(ps) :: c.delta == ""
  {
    if ps != [] {
      assert ps == ps[..|ps| - 1] + [ps[|ps| - 1]];
      assert ps[|ps| - 1] in ps;
      NothingWithTextDropped(ps[..|ps| - 1]);
    }
  }
}

/** The Bedrock rendering of a stream (server/internal/relay/stream.go with the payload builders of
    server/internal/adapter/transform.go), and its way back through the gateway's own de-framer and
    Bedrock parser. */
module BedrockStream {
  import opened Prelude
  import opened UsageAccounting
  import opened EventStream
  import opened StreamChunks

  datatype Render = Render(begun: bool, frames: seq<Frame>)

  const START: Render := Render(false, [])

  function Put(json: Json, r: Render, eventType: Bytes, body: Body): Render {
    r.(frames := r.frames + [Frame(eventType, json.encode(body))])
  }

  function Open(json: Json, r: Render): Render {
    if r.begun then r else Put(json, Put(json, r, MESSAGE_START, NO_BODY), BLOCK_START, NO_BODY).(begun := true)
  }

  function TextBody(text: string): Body { NO_BODY.(deltaText := text) }

  /** One chunk rendered: only text makes a frame. */
  function Emit(json: Json, r: Render, c: Chunk): Render {
    if c.delta == "" then r else Put(json, Open(json, r), BLOCK_DELTA, TextBody(c.delta))
  }

  function Run(json: Json, cs: seq<Chunk>): Render {
    if cs == [] then START else Emit(json, Run(json, cs[..|cs| - 1]), cs[|cs| - 1])
  }

  function OrNoUsage(u: Option<Usage>): Usage { if u.Some? then u.value else NO_USAGE }

  function StopBody(stop: StopReason): Body { NO_BODY.(stopReason := StopToBedrock(stop)) }

  function UsageBody(u: Option<Usage>): Body { NO_BODY.(usage := Some(BedrockFromUsage(OrNoUsage(u)))) }

  /** The terminal framing. */
  function Finish(json: Json, r: Render, stop: StopReason, usage: Option<Usage>): Render {
    var closed := Put(json, Open(json, r), BLOCK_STOP, NO_BODY);
    Put(json, Put(json, closed, MESSAGE_STOP, StopBody(stop)), METADATA, UsageBody(usage))
  }

  /** One frame for every chunk with text. */
  function TextFrames(json: Json, cs: seq<Chunk>): seq<Frame> {
    if cs == [] then []
    else
      var before, last := TextFrames(json, cs[..|cs| - 1]), cs[|cs| - 1];
      if last.delta == "" then before
      else before + [Frame(Ascii("contentBlockDelta"), json.encode(NO_BODY.(deltaText := last.delta)))]
  }

  lemma {:induction false} RunFrames(json: Json, cs: seq<Chunk>)
    ensures var r, texts := Run(json, cs), TextFrames(json, cs);
            && (r.begun <==> texts != [])
            && r.frames == if texts == [] then []
                           else [Frame(Ascii("messageStart"), json.encode(NO_BODY)),
                                 Frame(Ascii("contentBlockStart"), json.encode(NO_BODY))] + texts
  {
    hide Ascii;
    if cs != [] {
      RunFrames(json, cs[..|cs| - 1]);
    }
  }

  /** The whole output, frame by frame: one message with one block, a frame for every chunk with text,
      the stop reason and the usage. */
  lemma FramesWritten(json: Json, cs: seq<Chunk>, stop: StopReason, usage: Option<Usage>)
    ensures var counts := if usage.None? then BedrockUsage(0, 0, 0, 0, 0)
                          else var u := usage.value;
                               BedrockUsage(u.prompt, u.completion, u.total, Max(0, u.cacheRead), Max(0, u.cacheWrite));
            Finish(json, Run(json, cs), stop, usage).frames
            == [Frame(Ascii("messageStart"), json.encode(NO_BODY)),
                Frame(Ascii("contentBlockStart"), json.encode(NO_BODY))]
               + TextFrames(json, cs)
               + [Frame(Ascii("contentBlockStop"), json.encode(NO_BODY)),
                  Frame(Ascii("messageStop"), json.encode(NO_BODY.(stopReason := StopToBedrock(stop)))),
                  Frame(Ascii("metadata"), json.encode(NO_BODY.(usage := Some(counts))))]
  {
    hide Ascii, Run, TextFrames, StopToBedrock;
    RunFrames(json, cs);
  }

  // ------------------------------------------------------------------ reading it back

  function ParseAll(json: Json, fs: seq<Frame>): seq<Parsed> {
    seq(|fs|, i requires 0 <= i < |fs| => ParseBedrock(json, fs[i]))
  }

  /** What a pump counts when it reads these frames. */
  function Reread(json: Json, fs: seq<Frame>): Account { CountAll(Live(ParseAll(json, fs))) }

  predicate Benign(p: Parsed) { p.Parsed? && p.chunk.fatal.None? }

  ghost predicate AllBenign(json: Json, fs: seq<Frame>) {
    forall f | f in fs :: Benign(ParseBedrock(json, f))
  }

  lemma RereadPut(json: Json, r: Render, eventType: Bytes, body: Body)
    requires AllBenign(json, r.frames) && Benign(ParseBedrock(json, Frame(eventType, json.encode(body))))
    ensures AllBenign(json, Put(json, r, eventType, body).frames)
    ensures Reread(json, Put(json, r, eventType, body).frames)
            == Count(Reread(json, r.frames), ParseBedrock(json, Frame(eventType, json.encode(body))).chunk)
  {
    hide ParseBedrock, Count;
    var f := Frame(eventType, json.encode(body));
    var before, after := ParseAll(json, r.frames), ParseAll(json, r.frames + [f]);
    assert after == before + [ParseBedrock(json, f)] && after[..|after| - 1] == before;
    forall p | p in before ensures Benign(p) {
      var i :| 0 <= i < |before| && before[i] == p;
      assert r.frames[i] in r.frames;
    }
    assert Live(after) == Live(before) + [ParseBedrock(json, f).chunk];
    assert Live(after)[..|Live(after)| - 1] == Live(before);
  }

  /** The stop reason survives the trip, an unknown one becoming end_turn. */
  lemma StopRoundTrip(s: StopReason)
    ensures BedrockStopToUnified(StopToBedrock(s)) == OrEndTurn(s)
  {
  }

  /** What each kind of emitted frame parses to. */
  lemma ParsesAs(json: Json, body: Body, eventType: Bytes)
    requires Lawful(json)
    ensures eventType in {MESSAGE_START, BLOCK_STOP} ==>
              ParseBedrock(json, Frame(eventType, json.encode(body))) == Parsed(NO_CHUNK, false)
    ensures body == NO_BODY ==> ParseBedrock(json, Frame(BLOCK_START, json.encode(body))) == Parsed(NO_CHUNK, false)
    ensures body == TextBody(body.deltaText) && body.deltaText != "" ==>
              ParseBedrock(json, Frame(BLOCK_DELTA, json.encode(body)))
              == Parsed(NO_CHUNK.(delta := body.deltaText), true)
    ensures ParseBedrock(json, Frame(MESSAGE_STOP, json.encode(body)))
            == Parsed(NO_CHUNK.(stop := BedrockStopToUnified(body.stopReason), done := true), true)
    ensures body.usage.Some? ==>
              ParseBedrock(json, Frame(METADATA, json.encode(body)))
              == Parsed(NO_CHUNK.(usage := Some(UsageFromBedrock(body.usage.value)), done := true), true)
  {
    hide IsException, ExceptionStatus, BedrockStopToUnified, UsageFromBedrock, Ascii;
    EventTypes();
    assert json.decode(MESSAGE_START, json.encode(body)) == Some(body);
    assert json.decode(BLOCK_START, json.encode(body)) == Some(body);
    assert json.decode(BLOCK_DELTA, json.encode(body)) == Some(body);
    assert json.decode(BLOCK_STOP, json.encode(body)) == Some(body);
    assert json.decode(MESSAGE_STOP, json.encode(body)) == Some(body);
    assert json.decode(METADATA, json.encode(body)) == Some(body);
  }

  lemma CountNothing(a: Account)
    ensures Count(a, NO_CHUNK) == a
  {
    assert a.completion + "" == a.completion;
  }

  lemma OpenRereads(json: Json, r: Render)
    requires Lawful(json) && AllBenign(json, r.frames)
    ensures AllBenign(json, Open(json, r).frames) && Reread(json, Open(json, r).frames) == Reread(json, r.frames)
  {
    hide Lawful, AllBenign, Reread, ParseBedrock, Count;
    ParsesAs(json, NO_BODY, MESSAGE_START);
    CountNothing(Reread(json, r.frames));
    if !r.begun {
      RereadPut(json, r, MESSAGE_START, NO_BODY);
      RereadPut(json, Put(json, r, MESSAGE_START, NO_BODY), BLOCK_START, NO_BODY);
    }
  }

  lemma {:induction false} RunRereads(json: Json, cs: seq<Chunk>)
    requires Lawful(json)
    ensures AllBenign(json, Run(json, cs).frames)
    ensures Reread(json, Run(json, cs).frames) == NO_ACCOUNT.(completion := Text(cs))
  {
    hide Lawful, ParseBedrock, AllBenign, Reread;
    if cs == [] {
      RereadNothing(json);
    } else {
      var init, last := cs[..|cs| - 1], cs[|cs| - 1];
      RunRereads(json, init);
      var r := Run(json, init);
      if last.delta != "" {
        OpenRereads(json, r);
        ParsesAs(json, TextBody(last.delta), BLOCK_DELTA);
        RereadPut(json, Open(json, r), BLOCK_DELTA, TextBody(last.delta));
      }
    }
  }

  lemma RereadNothing(json: Json)
    ensures AllBenign(json, []) && Reread(json, []) == NO_ACCOUNT
  {
  }

  /** The usage a reader of the stream ends up with. */
  function RereadUsage(usage: Option<Usage>): Usage { UsageFromBedrock(BedrockFromUsage(OrNoUsage(usage))) }

  /** Parsing the emitted frames gives back the concatenation of all text rendered, the final stop
      reason with unknown becoming end_turn, and the final usage. */
  lemma FramesRereadToTheSource(json: Json, cs: seq<Chunk>, stop: StopReason, usage: Option<Usage>)
    requires Lawful(json)
    ensures Reread(json, Finish(json, Run(json, cs), stop, usage).frames)
            == Account(Some(RereadUsage(usage)), Text(cs), OrEndTurn(stop))
  {
    hide Lawful, AllBenign, Reread, ParseBedrock, Run;
    hide UsageFromBedrock, BedrockFromUsage, StopToBedrock, BedrockStopToUnified;
    var r := Run(json, cs);
    RunRereads(json, cs);
    OpenRereads(json, r);
    ParsesAs(json, NO_BODY, BLOCK_STOP);
    CountNothing(Reread(json, Open(json, r).frames));
    RereadPut(json, Open(json, r), BLOCK_STOP, NO_BODY);
    var closed := Put(json, Open(json, r), BLOCK_STOP, NO_BODY);
    ParsesAs(json, StopBody(stop), MESSAGE_STOP);
    StopRoundTrip(stop);
    RereadPut(json, closed, MESSAGE_STOP, StopBody(stop));
    var stopped := Put(json, closed, MESSAGE_STOP, StopBody(stop));
    ParsesAs(json, UsageBody(usage), METADATA);
    RereadPut(json, stopped, METADATA, UsageBody(usage));
    assert Text(cs) + "" == Text(cs);
  }

  // ------------------------------------------------------------------ tool calls do not survive

  /** The tool deltas in the chunks. */
  function ToolDeltas(cs: seq<Chunk>): seq<ToolDelta> {
    if cs == [] then []
    else
      var before, last := ToolDeltas(cs[..|cs| - 1]), cs[|cs| - 1];
      if last.tool.Some? then before + [last.tool.value] else before
  }

  lemma {:induction false} NoToolDeltas(cs: seq<Chunk>)
    ensures ToolDeltas(cs) == [] <==> forall c | c in cs :: c.tool.None?
  {
    if cs != [] {
      NoToolDeltas(cs[..|cs| - 1]);
      assert cs == cs[..|cs| - 1] + [cs[|cs| - 1]];
      assert cs[|cs| - 1] in cs;
    }
  }

  predicate Toolless(json: Json, f: Frame) {
    ParseBedrock(json, f).Skip? || ParseBedrock(json, f).chunk.tool.None?
  }

  ghost predicate AllToolless(json: Json, fs: seq<Frame>) {
    forall f | f in fs :: Toolless(json, f)
  }

  lemma OpenToolless(json: Json, r: Render)
    requires Lawful(json) && AllToolless(json, r.frames)
    ensures AllToolless(json, Open(json, r).frames)
  {
    hide Lawful, ParseBedrock;
    ParsesAs(json, NO_BODY, MESSAGE_START);
  }

  lemma {:induction false} RunToolless(json: Json, cs: seq<Chunk>)
    requires Lawful(json)
    ensures AllToolless(json, Run(json, cs).frames)
  {
    hide Lawful, ParseBedrock, Open;
    if cs != [] {
      var init, last := cs[..|cs| - 1], cs[|cs| - 1];
      RunToolless(json, init);
      OpenToolless(json, Run(json, init));
      if last.delta != "" {
        ParsesAs(json, TextBody(last.delta), BLOCK_DELTA);
      }
    }
  }

  /** No frame of the whole output is a tool call or part of one. */
  lemma OutputToolless(json: Json, cs: seq<Chunk>, stop: StopReason, usage: Option<Usage>)
    requires Lawful(json)
    ensures forall f | f in Finish(json, Run(json, cs), stop, usage).frames :: Toolless(json, f)
  {
    hide Lawful, ParseBedrock, Open, Run, StopToBedrock, BedrockFromUsage;
    RunToolless(json, cs);
    OpenToolless(json, Run(json, cs));
    ParsesAs(json, NO_BODY, BLOCK_STOP);
    ParsesAs(json, StopBody(stop), MESSAGE_STOP);
    ParsesAs(json, UsageBody(usage), METADATA);
  }

  lemma {:induction false} LiveToolless(ps: seq<Parsed>)
    requires forall k | 0 <= k < |ps| :: ps[k].Skip? || ps[k].chunk.tool.None?
    ensures ToolDeltas(Live(ps)) == []
  {
    if ps != [] {
      LiveToolless(ps[..|ps| - 1]);
      var before := Live(ps[..|ps| - 1]);
      assert ps[|ps| - 1].Parsed? ==> (before + [ps[|ps| - 1].chunk])[..|before|] == before;
    }
  }

  /** The tool calls read back from the output are those of the chunks exactly when the chunks carry
      none: every tool call of a stream is lost in this rendering. */
  lemma ToolCallsAreLost(json: Json, cs: seq<Chunk>, stop: StopReason, usage: Option<Usage>)
    requires Lawful(json)
    ensures var reread := ToolDeltas(Live(ParseAll(json, Finish(json, Run(json, cs), stop, usage).frames)));
            reread == [] && (reread == ToolDeltas(cs) <==> forall c | c in cs :: c.tool.None?)
  {
    hide Lawful, ParseBedrock, Run, Finish, ToolDeltas, Live;
    var fs := Finish(json, Run(json, cs), stop, usage).frames;
    OutputToolless(json, cs, stop, usage);
    assert forall k | 0 <= k < |fs| :: fs[k] in fs;
    LiveToolless(ParseAll(json, fs));
    NoToolDeltas(cs);
  }

  /** It happens: a complete tool call whose client is told to use a tool and not which. */
  lemma ToolCallCanBeLost(json: Json)
    requires Lawful(json)
    ensures var call := ToolDelta(0, "call_1", "f", "{}");
            var cs := [NO_CHUNK.(tool := Some(call)), NO_CHUNK.(stop := ToolUse, done := true)];
            var ps := ParseAll(json, Finish(json, Run(json, cs), LastStop(cs), None).frames);
            && ToolDeltas(cs) == [call] && ToolDeltas(Live(ps)) == []
            && CountAll(Live(ps)).completion == "" && CountAll(Live(ps)).stop == ToolUse
  {
    hide Lawful, ParseBedrock, Run, Finish, CountAll, Live;
    var call := ToolDelta(0, "call_1", "f", "{}");
    var first, last := NO_CHUNK.(tool := Some(call)), NO_CHUNK.(stop := ToolUse, done := true);
    var cs := [first, last];
    assert cs[..1] == [first] && [first][..0] == [];
    assert ToolDeltas([]) == [] && Text([]) == "" && ToolDeltas([first]) == [call] && Text([first]) == "";
    assert Text(cs) == "";
    FramesRereadToTheSource(json, cs, LastStop(cs), None);
    ToolCallsAreLost(json, cs, LastStop(cs), None);
  }

  /** Usage survives exactly, marked as reported, when its cache counts are not negative and its total
      is not to be derived. */
  lemma UsageRoundTrip(u: Usage)
    ensures RereadUsage(Some(u)) == u.(upstream := true)
            <==> u.cacheRead >= 0 && u.cacheWrite >= 0 && (u.total != 0 || u.prompt + u.completion == 0)
  {
  }

  // ------------------------------------------------------------------ down to the bytes

  lemma {:induction false} TypedFramesAreForwarded(fs: seq<Frame>)
    requires forall f | f in fs :: f.eventType != []
    ensures EmitAll(fs) == fs
  {
    if fs != [] {
      assert fs[0] in fs;
      assert forall f | f in fs[1..] :: f in fs;
      TypedFramesAreForwarded(fs[1..]);
      assert fs == [fs[0]] + fs[1..];
    }
  }

  ghost predicate AllTyped(fs: seq<Frame>) { forall f | f in fs :: f.eventType != [] }

  lemma OpenTyped(json: Json, r: Render)
    requires AllTyped(r.frames)
    ensures AllTyped(Open(json, r).frames)
  {
    EventTypes();
  }

  lemma {:induction false} RunTyped(json: Json, cs: seq<Chunk>)
    ensures AllTyped(Run(json, cs).frames)
  {
    hide Open;
    if cs != [] {
      RunTyped(json, cs[..|cs| - 1]);
      OpenTyped(json, Run(json, cs[..|cs| - 1]));
      EventTypes();
    }
  }

  lemma FinishTyped(json: Json, cs: seq<Chunk>, stop: StopReason, usage: Option<Usage>)
    ensures AllTyped(Finish(json, Run(json, cs), stop, usage).frames)
  {
    hide Run, Open, StopBody, UsageBody;
    RunTyped(json, cs);
    OpenTyped(json, Run(json, cs));
    EventTypes();
  }

  /** End to end: the bytes written for a stream, read by the gateway's own de-framer and parser, give
      back the text, the stop reason and the usage, and end cleanly. */
  lemma BytesRereadToTheSource(json: Json, cs: seq<Chunk>, stop: StopReason, usage: Option<Usage>, crc: Checksum)
    requires Lawful(json)
    requires forall f | f in Finish(json, Run(json, cs), stop, usage).frames :: Fits(f)
    ensures var d := Decode(EncodeAll(Finish(json, Run(json, cs), stop, usage).frames, crc));
            && d.end == Clean && d.events == Finish(json, Run(json, cs), stop, usage).frames
            && Reread(json, d.events) == Account(Some(RereadUsage(usage)), Text(cs), OrEndTurn(stop))
  {
    hide Lawful, Reread, Run, Finish, RereadUsage, Fits, Decode, EncodeAll;
    var fs := Finish(json, Run(json, cs), stop, usage).frames;
    FinishTyped(json, cs, stop, usage);
    TypedFramesAreForwarded(fs);
    DecodeInvertsEncode(fs, [], crc);
    DecodeEmpty();
    AfterAfter(fs, [], Decode([]));
    assert EncodeAll(fs, crc) + [] == EncodeAll(fs, crc);
    FramesRereadToTheSource(json, cs, stop, usage);
  }

  lemma {:induction false} LivePrefix(ps: seq<Parsed>, m: nat)
    requires m <= |ps|
    ensures Live(ps[..m]) <= Live(ps)
  {
    assert ps[..|ps|] == ps;
    if m < |ps| {
      LivePrefix(ps[..|ps| - 1], m);
      assert ps[..|ps| - 1][..m] == ps[..m];
    }
  }

  lemma TextPrefix(a: seq<Chunk>, b: seq<Chunk>)
    requires a <= b
    ensures Text(a) <= Text(b)
  {
    TextAppends(a, b[|a|..]);
    assert a + b[|a|..] == b;
  }

  /** Cut the bytes anywhere: the reader gets a prefix of the text, never anything else. */
  lemma CutGivesPrefix(json: Json, cs: seq<Chunk>, stop: StopReason, usage: Option<Usage>, crc: Checksum, k: nat)
    requires Lawful(json)
    requires var fs := Finish(json, Run(json, cs), stop, usage).frames;
             (forall f | f in fs :: Fits(f)) && k <= |EncodeAll(fs, crc)|
    ensures var d := Decode(EncodeAll(Finish(json, Run(json, cs), stop, usage).frames, crc)[..k]);
            Reread(json, d.events).completion <= Text(cs)
  {
    hide Lawful, Run, Finish, RereadUsage, ParseBedrock, Live, CountAll, Text, Fold, Usages;
    hide Fits, Decode, EncodeAll, EmitAll, Contained, LeftOver;
    var fs := Finish(json, Run(json, cs), stop, usage).frames;
    FinishTyped(json, cs, stop, usage);
    PrefixIsExact(fs, k, crc);
    var m := Contained(fs, k);
    assert forall f | f in fs[..m] :: f in fs;
    TypedFramesAreForwarded(fs[..m]);
    FramesRereadToTheSource(json, cs, stop, usage);
    var all, some := ParseAll(json, fs), ParseAll(json, fs[..m]);
    assert some == all[..m];
    LivePrefix(all, m);
    TextPrefix(Live(some), Live(all));
    CountMeaning(Live(some));
    CountMeaning(Live(all));
  }
}

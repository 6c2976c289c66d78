/** The Anthropic rendering of a stream: the closures emitAnthropic, openAnthropicText and
    closeAnthToolBlock of pumpStream and its terminal framing (server/internal/relay/stream.go). */
module AnthropicStream {
  import opened Prelude
  import opened UsageAccounting
  import opened StreamChunks

  datatype Event =
    | MessageStart
    | TextStart
    | ToolStart(index: int, id: string, name: string)
    | TextDelta(text: string)
    | ArgsDelta(index: int, args: string)
    | BlockStop(index: int)
    | MessageDelta(stop: string, usage: Option<Usage>)
    | MessageStop

  /** The renderer's variables and what it has written. toolIdx is 0 when no tool block is open. */
  datatype Render = Render(begun: bool, textOpen: bool, toolIdx: int, out: seq<Event>)

  const START: Render := Render(false, false, 0, [])

  function Put(r: Render, e: Event): Render { r.(out := r.out + [e]) }

  function Open(r: Render): Render {
    if r.begun then r else Put(r, MessageStart).(begun := true)
  }

  function OpenText(r: Render): Render {
    var o := Open(r);
    if o.textOpen then o else Put(o, TextStart).(textOpen := true)
  }

  function CloseTool(r: Render): Render {
    if r.toolIdx > 0 then Put(r, BlockStop(r.toolIdx)).(toolIdx := 0) else r
  }

  function CloseText(r: Render): Render {
    if r.textOpen then Put(r, BlockStop(0)).(textOpen := false) else r
  }

  function BlockIndex(index: int): int { if index + 1 < 1 then 1 else index + 1 }

  function StartTool(r: Render, t: ToolDelta): Render {
    if t.name == "" then r
    else Put(CloseText(CloseTool(r)), ToolStart(BlockIndex(t.index), t.id, t.name)).(toolIdx := BlockIndex(t.index))
  }

  function StreamArgs(r: Render, args: string): Render {
    if args != "" && r.toolIdx > 0 then Put(r, ArgsDelta(r.toolIdx, args)) else r
  }

  /** One chunk rendered. */
  function Emit(r: Render, c: Chunk): Render {
    match c.tool
    case Some(t) => StreamArgs(StartTool(Open(r), t), t.args)
    case None => if c.delta != "" then Put(OpenText(r), TextDelta(c.delta)) else r
  }

  function Run(cs: seq<Chunk>): Render {
    if cs == [] then START else Emit(Run(cs[..|cs| - 1]), cs[|cs| - 1])
  }

  /** The terminal framing. */
  function Finish(r: Render, stop: StopReason, usage: Option<Usage>): Render {
    Put(Put(CloseText(CloseTool(Open(r))), MessageDelta(StopToAnthropic(stop), usage)), MessageStop)
  }

  // ------------------------------------------------------------------ the protocol

  datatype Kind = TextBlock | ToolBlock

  /** The client's view of a stream: which blocks are open, by index. */
  datatype View = Fresh | Streaming(blocks: map<int, Kind>) | Closing | Ended | Broken

  function Feed(v: View, e: Event): View {
    match e
    case MessageStart => if v.Fresh? then Streaming(map[]) else Broken
    case TextStart => if v.Streaming? && 0 !in v.blocks then Streaming(v.blocks[0 := TextBlock]) else Broken
    case ToolStart(i, _, _) =>
      if v.Streaming? && i >= 1 && i !in v.blocks then Streaming(v.blocks[i := ToolBlock]) else Broken
    case TextDelta(_) => if v.Streaming? && 0 in v.blocks && v.blocks[0] == TextBlock then v else Broken
    case ArgsDelta(i, _) => if v.Streaming? && i in v.blocks && v.blocks[i] == ToolBlock then v else Broken
    case BlockStop(i) => if v.Streaming? && i in v.blocks then Streaming(v.blocks - {i}) else Broken
    case MessageDelta(_, _) => if v == Streaming(map[]) then Closing else Broken
    case MessageStop => if v.Closing? then Ended else Broken
  }

  function Viewed(out: seq<Event>): View {
    if out == [] then Fresh else Feed(Viewed(out[..|out| - 1]), out[|out| - 1])
  }

  /** The blocks the renderer's variables say are open. */
  function Blocks(r: Render): map<int, Kind> {
    (if r.textOpen then map[0 := TextBlock] else map[]) + (if r.toolIdx > 0 then map[r.toolIdx := ToolBlock] else map[])
  }

  /** The variables agree with what a client has seen. */
  ghost predicate Agrees(r: Render) {
    && r.toolIdx >= 0
    && (!r.begun ==> r == START)
    && (r.begun ==> Viewed(r.out) == Streaming(Blocks(r)))
  }

  lemma PutFeeds(r: Render, e: Event)
    ensures Viewed(Put(r, e).out) == Feed(Viewed(r.out), e)
  {
    assert (r.out + [e])[..|r.out|] == r.out;
  }

  lemma OpenAgrees(r: Render)
    requires Agrees(r)
    ensures Agrees(Open(r)) && Open(r).begun
  {
    hide Viewed;
    PutFeeds(r, MessageStart);
    ViewedNothing();
  }

  lemma ViewedNothing()
    ensures Viewed([]) == Fresh
  {
  }

  lemma CloseAgrees(r: Render)
    requires Agrees(r) && r.begun
    ensures Agrees(CloseTool(r)) && CloseTool(r).begun && CloseTool(r).toolIdx == 0
    ensures Agrees(CloseText(r)) && CloseText(r).begun && !CloseText(r).textOpen
  {
    hide Viewed;
    PutFeeds(r, BlockStop(r.toolIdx));
    PutFeeds(r, BlockStop(0));
    if r.toolIdx > 0 {
      assert Blocks(r) - {r.toolIdx} == Blocks(CloseTool(r));
    }
    if r.textOpen {
      assert Blocks(r) - {0} == Blocks(CloseText(r));
    }
  }

  lemma StartToolAgrees(r: Render, t: ToolDelta)
    requires Agrees(r) && r.begun
    ensures Agrees(StartTool(r, t)) && StartTool(r, t).begun
  {
    hide Viewed;
    CloseAgrees(r);
    CloseAgrees(CloseTool(r));
    PutFeeds(CloseText(CloseTool(r)), ToolStart(BlockIndex(t.index), t.id, t.name));
  }

  lemma EmitAgrees(r: Render, c: Chunk)
    requires Agrees(r)
    ensures Agrees(Emit(r, c))
  {
    hide Viewed, StartTool;
    OpenAgrees(r);
    match c.tool
    case Some(t) =>
      StartToolAgrees(Open(r), t);
      var s := StartTool(Open(r), t);
      PutFeeds(s, ArgsDelta(s.toolIdx, t.args));
    case None =>
      PutFeeds(Open(r), TextStart);
      PutFeeds(OpenText(r), TextDelta(c.delta));
      assert !Open(r).textOpen ==> Blocks(Open(r))[0 := TextBlock] == Blocks(OpenText(r));
  }

  lemma {:induction false} RunAgrees(cs: seq<Chunk>)
    ensures Agrees(Run(cs))
  {
    if cs != [] {
      RunAgrees(cs[..|cs| - 1]);
      EmitAgrees(Run(cs[..|cs| - 1]), cs[|cs| - 1]);
    }
  }

  /** Whatever chunks arrive and wherever the stream stops, the client sees a complete, well-formed
      message: every delta goes to an open block of its kind, blocks are closed before the end. */
  lemma ProtocolKept(cs: seq<Chunk>, stop: StopReason, usage: Option<Usage>)
    ensures Viewed(Finish(Run(cs), stop, usage).out) == Ended
  {
    hide Viewed, Run;
    var r := Run(cs);
    RunAgrees(cs);
    OpenAgrees(r);
    CloseAgrees(Open(r));
    CloseAgrees(CloseTool(Open(r)));
    var closed := CloseText(CloseTool(Open(r)));
    assert Blocks(closed) == map[];
    PutFeeds(closed, MessageDelta(StopToAnthropic(stop), usage));
    PutFeeds(Put(closed, MessageDelta(StopToAnthropic(stop), usage)), MessageStop);
  }

  function Starts(out: seq<Event>, i: int): nat {
    if out == [] then 0
    else
      var last := out[|out| - 1];
      Starts(out[..|out| - 1], i) + if (last.TextStart? && i == 0) || (last.ToolStart? && last.index == i) then 1 else 0
  }

  function Stops(out: seq<Event>, i: int): nat {
    if out == [] then 0
    else
      var last := out[|out| - 1];
      Stops(out[..|out| - 1], i) + if last.BlockStop? && last.index == i then 1 else 0
  }

  predicate Framing(e: Event) { e.MessageStart? || e.MessageDelta? || e.MessageStop? }

  /** While a view is not broken, a block is open exactly when it was started once more often than it
      was stopped, the first event is message_start and no other framing event has come. */
  lemma {:induction false} StreamingShape(out: seq<Event>)
    requires Viewed(out).Streaming?
    ensures out != [] && out[0] == MessageStart && forall k | 0 < k < |out| :: !Framing(out[k])
    ensures forall i :: Starts(out, i) == Stops(out, i) + if i in Viewed(out).blocks then 1 else 0
  {
    var init := out[..|out| - 1];
    if init != [] {
      StreamingShape(init);
      assert forall k | 0 < k < |init| :: out[k] == init[k];
    } else {
      assert out == [MessageStart];
    }
  }

  /** What it means for a stream to have ended well. */
  lemma EndedShape(out: seq<Event>)
    requires Viewed(out) == Ended
    ensures var n := |out|;
            && n >= 3 && out[0] == MessageStart && out[n - 2].MessageDelta? && out[n - 1] == MessageStop
            && (forall k | 0 < k < n - 2 :: !Framing(out[k]))
            && (forall i :: Starts(out, i) == Stops(out, i))
  {
    hide Viewed, Feed;
    LastFed(out);
    var a := out[..|out| - 1];
    LastFed(a);
    var b := a[..|a| - 1];
    StreamingShape(b);
    assert forall k | 0 <= k < |b| :: out[k] == b[k];
    forall i ensures Starts(out, i) == Stops(out, i) {
      assert Starts(out, i) == Starts(a, i) == Starts(b, i);
      assert Stops(out, i) == Stops(a, i) == Stops(b, i);
    }
  }

  /** The two ways a view closes and ends. */
  lemma LastFed(out: seq<Event>)
    ensures Viewed(out) == Ended ==> out != [] && out[|out| - 1] == MessageStop && Viewed(out[..|out| - 1]) == Closing
    ensures Viewed(out) == Closing ==>
              out != [] && out[|out| - 1].MessageDelta? && Viewed(out[..|out| - 1]) == Streaming(map[])
  {
  }

  // ------------------------------------------------------------------ how many blocks are open at once

  function Width(v: View): nat { if v.Streaming? then |v.blocks| else 0 }

  /** At no point is more than one block open. */
  ghost predicate Narrow(out: seq<Event>) {
    forall k | 0 <= k <= |out| :: Width(Viewed(out[..k])) <= 1
  }

  lemma NarrowPut(r: Render, e: Event)
    ensures Narrow(Put(r, e).out) <==> Narrow(r.out) && Width(Viewed(Put(r, e).out)) <= 1
  {
    var out := Put(r, e).out;
    assert out[..|out|] == out;
    assert forall k | 0 <= k <= |r.out| :: out[..k] == r.out[..k];
    if Narrow(out) {
      forall k | 0 <= k <= |r.out| ensures Width(Viewed(r.out[..k])) <= 1 {
        assert Width(Viewed(out[..k])) <= 1;
      }
    }
  }

  predicate Named(c: Chunk) { c.tool.Some? && c.tool.value.name != "" }

  predicate Textual(c: Chunk) { c.tool.None? && c.delta != "" }

  /** No text arrives once a tool call has begun. */
  ghost predicate TextFirst(cs: seq<Chunk>) {
    forall j, k | 0 <= j < k < |cs| :: Named(cs[j]) ==> !Textual(cs[k])
  }

  lemma BlocksWidth(r: Render)
    ensures |Blocks(r)| == (if r.textOpen then 1 else 0) + (if r.toolIdx > 0 then 1 else 0)
  {
    if r.textOpen && r.toolIdx > 0 {
      assert Blocks(r).Keys == {0, r.toolIdx};
    } else if r.textOpen {
      assert Blocks(r).Keys == {0};
    } else if r.toolIdx > 0 {
      assert Blocks(r).Keys == {r.toolIdx};
    } else {
      assert Blocks(r).Keys == {};
    }
  }

  predicate Overlaps(r: Render) { r.textOpen && r.toolIdx > 0 }

  /** Putting one event that leaves the variables in agreement stays narrow unless both kinds of
      block are then open. */
  lemma NarrowStep(r: Render, e: Event, next: Render)
    requires Agrees(next) && next.begun && next.out == Put(r, e).out
    ensures Narrow(next.out) <==> Narrow(r.out) && !Overlaps(next)
  {
    hide Viewed, Narrow;
    NarrowPut(r, e);
    BlocksWidth(next);
  }

  /** An overlap in the variables is visible in the output. */
  lemma OverlapShows(r: Render)
    requires Agrees(r) && Overlaps(r)
    ensures !Narrow(r.out)
  {
    hide Viewed;
    BlocksWidth(r);
    assert r.out[..|r.out|] == r.out;
  }

  lemma OpenNarrow(r: Render)
    requires Agrees(r)
    ensures Narrow(Open(r).out) <==> Narrow(r.out)
  {
    hide Viewed, Narrow;
    OpenAgrees(r);
    if !r.begun {
      NarrowStep(r, MessageStart, Open(r));
    }
  }

  lemma CloseNarrow(r: Render)
    requires Agrees(r) && r.begun
    ensures Narrow(CloseTool(r).out) <==> Narrow(r.out)
    ensures Narrow(CloseText(r).out) <==> Narrow(r.out)
  {
    hide Viewed, Narrow;
    CloseAgrees(r);
    if r.toolIdx > 0 {
      NarrowStep(r, BlockStop(r.toolIdx), CloseTool(r));
    }
    if r.textOpen {
      NarrowStep(r, BlockStop(0), CloseText(r));
    }
  }

  lemma ToolNarrow(r: Render, t: ToolDelta)
    requires Agrees(r) && r.begun
    ensures Narrow(StreamArgs(StartTool(r, t), t.args).out) <==> Narrow(r.out)
  {
    hide Viewed, Narrow;
    StartToolAgrees(r, t);
    if t.name != "" {
      var a, b := CloseTool(r), CloseText(CloseTool(r));
      CloseAgrees(r);
      CloseNarrow(r);
      CloseNarrow(a);
      NarrowStep(b, ToolStart(BlockIndex(t.index), t.id, t.name), StartTool(r, t));
    }
    var s := StartTool(r, t);
    if t.args != "" && s.toolIdx > 0 {
      PutFeeds(s, ArgsDelta(s.toolIdx, t.args));
      NarrowStep(s, ArgsDelta(s.toolIdx, t.args), StreamArgs(s, t.args));
      ArgsKeepNarrow(s);
    }
  }

  lemma ArgsKeepNarrow(s: Render)
    requires Agrees(s)
    ensures Narrow(s.out) && Overlaps(s) ==> false
  {
    if Overlaps(s) {
      OverlapShows(s);
    }
  }

  lemma TextNarrow(r: Render, text: string)
    requires Agrees(r)
    ensures Narrow(Put(OpenText(r), TextDelta(text)).out) <==> Narrow(r.out) && r.toolIdx == 0
  {
    hide Viewed, Narrow;
    OpenAgrees(r);
    OpenNarrow(r);
    var o, t := Open(r), OpenText(r);
    PutFeeds(o, TextStart);
    assert !o.textOpen ==> Blocks(o)[0 := TextBlock] == Blocks(t);
    if !o.textOpen {
      NarrowStep(o, TextStart, t);
    }
    PutFeeds(t, TextDelta(text));
    NarrowStep(t, TextDelta(text), Put(t, TextDelta(text)));
    ArgsKeepNarrow(t);
    assert t.toolIdx == r.toolIdx;
  }

  lemma EmitTool(r: Render, c: Chunk)
    requires r.toolIdx >= 0
    ensures Emit(r, c).toolIdx >= 0 && (Emit(r, c).toolIdx > 0 <==> r.toolIdx > 0 || Named(c))
  {
  }

  lemma {:induction false} ToolOpenSinceNamed(cs: seq<Chunk>)
    ensures Run(cs).toolIdx >= 0 && (Run(cs).toolIdx > 0 <==> exists k | 0 <= k < |cs| :: Named(cs[k]))
  {
    hide Emit;
    if cs != [] {
      var init, last := cs[..|cs| - 1], cs[|cs| - 1];
      ToolOpenSinceNamed(init);
      EmitTool(Run(init), last);
      assert forall k | 0 <= k < |init| :: cs[k] == init[k];
      assert cs[|cs| - 1] == last;
    }
  }

  /** No two blocks are ever open at once exactly when no text arrives after a tool call has begun:
      otherwise the text opens index 0 beside the tool block. */
  lemma {:induction false} OneBlockAtATime(cs: seq<Chunk>)
    ensures Narrow(Run(cs).out) <==> TextFirst(cs)
  {
    hide Viewed, Narrow, Emit;
    if cs == [] {
      NarrowNothing();
    } else {
      var init, last := cs[..|cs| - 1], cs[|cs| - 1];
      OneBlockAtATime(init);
      RunAgrees(init);
      ToolOpenSinceNamed(init);
      EmitNarrow(Run(init), last);
      TextFirstSplit(cs);
    }
  }

  lemma NarrowNothing()
    ensures Narrow([])
  {
  }

  lemma EmitNarrow(r: Render, c: Chunk)
    requires Agrees(r)
    ensures Narrow(Emit(r, c).out) <==> Narrow(r.out) && (Textual(c) ==> r.toolIdx == 0)
  {
    hide Viewed, Narrow;
    match c.tool
    case Some(t) =>
      OpenAgrees(r);
      OpenNarrow(r);
      ToolNarrow(Open(r), t);
    case None =>
      TextNarrow(r, c.delta);
  }

  lemma TextFirstSplit(cs: seq<Chunk>)
    requires cs != []
    ensures var init, last := cs[..|cs| - 1], cs[|cs| - 1];
            TextFirst(cs) <==> TextFirst(init) && (Textual(last) ==> !exists k | 0 <= k < |init| :: Named(init[k]))
  {
    var init, last := cs[..|cs| - 1], cs[|cs| - 1];
    assert forall k | 0 <= k < |init| :: init[k] == cs[k];
    if TextFirst(cs) {
      forall j, k | 0 <= j < k < |init| ensures Named(init[j]) ==> !Textual(init[k]) {
        assert Named(cs[j]) ==> !Textual(cs[k]);
      }
      assert forall k | 0 <= k < |init| :: Named(cs[k]) ==> !Textual(cs[|cs| - 1]);
    }
  }

  /** The terminal framing opens nothing, so the same holds of the whole output. */
  lemma OneBlockToTheEnd(cs: seq<Chunk>, stop: StopReason, usage: Option<Usage>)
    ensures Narrow(Finish(Run(cs), stop, usage).out) <==> TextFirst(cs)
  {
    hide Viewed, Narrow, Run, TextFirst;
    var r := Run(cs);
    RunAgrees(cs);
    OneBlockAtATime(cs);
    OpenAgrees(r);
    OpenNarrow(r);
    CloseAgrees(Open(r));
    CloseNarrow(Open(r));
    CloseNarrow(CloseTool(Open(r)));
    CloseAgrees(CloseTool(Open(r)));
    var closed := CloseText(CloseTool(Open(r)));
    assert Blocks(closed) == map[];
    var delta := MessageDelta(StopToAnthropic(stop), usage);
    PutFeeds(closed, delta);
    NarrowPut(closed, delta);
    PutFeeds(Put(closed, delta), MessageStop);
    NarrowPut(Put(closed, delta), MessageStop);
  }

  // ------------------------------------------------------------------ nothing is invented or lost

  /** The text a client reads. */
  function ReadText(out: seq<Event>): string {
    if out == [] then ""
    else
      var last := out[|out| - 1];
      ReadText(out[..|out| - 1]) + if last.TextDelta? then last.text else ""
  }

  datatype Call = Call(index: int, id: string, name: string, args: string)

  function AddAt(calls: seq<Call>, k: nat, args: string): seq<Call>
    requires k < |calls|
  {
    calls[k := calls[k].(args := calls[k].args + args)]
  }

  /** Arguments added to the last call. */
  function AddArgs(calls: seq<Call>, args: string): seq<Call> {
    if calls == [] then [] else AddAt(calls, |calls| - 1, args)
  }

  /** A client assembling tool calls: which call each open block is of, and the calls so far. */
  datatype Reader = Reader(blocks: map<int, nat>, calls: seq<Call>)

  /** A fragment goes to the call of the open block with its index; without one it is ignored. */
  function ReadEvent(rd: Reader, e: Event): Reader {
    match e
    case ToolStart(i, id, name) => Reader(rd.blocks[i := |rd.calls|], rd.calls + [Call(i, id, name, "")])
    case ArgsDelta(i, args) =>
      if i in rd.blocks && rd.blocks[i] < |rd.calls| then rd.(calls := AddAt(rd.calls, rd.blocks[i], args)) else rd
    case BlockStop(i) => rd.(blocks := rd.blocks - {i})
    case _ => rd
  }

  function Reading(out: seq<Event>): Reader {
    if out == [] then Reader(map[], []) else ReadEvent(Reading(out[..|out| - 1]), out[|out| - 1])
  }

  function ReadCalls(out: seq<Event>): seq<Call> { Reading(out).calls }

  /** The text of the chunks that carry no tool delta. */
  function PlainText(cs: seq<Chunk>): string {
    if cs == [] then ""
    else PlainText(cs[..|cs| - 1]) + if cs[|cs| - 1].tool.None? then cs[|cs| - 1].delta else ""
  }

  /** The tool calls in the chunks: a named delta begins a call, every fragment goes to the call
      begun last, whatever index it carries, and a fragment before any call is dropped. */
  function Calls(cs: seq<Chunk>): seq<Call> {
    if cs == [] then []
    else
      var before := Calls(cs[..|cs| - 1]);
      match cs[|cs| - 1].tool
      case None => before
      case Some(t) =>
        AddArgs(if t.name == "" then before else before + [Call(Max(1, t.index + 1), t.id, t.name, "")], t.args)
  }

  lemma PutReads(r: Render, e: Event)
    ensures ReadText(Put(r, e).out) == ReadText(r.out) + if e.TextDelta? then e.text else ""
    ensures Reading(Put(r, e).out) == ReadEvent(Reading(r.out), e)
  {
    assert (r.out + [e])[..|r.out|] == r.out;
  }

  lemma FramingReads(r: Render)
    ensures ReadText(Open(r).out) == ReadText(OpenText(r).out) == ReadText(r.out)
    ensures ReadText(CloseTool(r).out) == ReadText(CloseText(r).out) == ReadText(r.out)
    ensures Reading(Open(r).out) == Reading(OpenText(r).out) == Reading(r.out)
    ensures Reading(CloseTool(r).out)
            == if r.toolIdx > 0 then ReadEvent(Reading(r.out), BlockStop(r.toolIdx)) else Reading(r.out)
    ensures Reading(CloseText(r).out)
            == if r.textOpen then ReadEvent(Reading(r.out), BlockStop(0)) else Reading(r.out)
  {
    hide ReadText, Reading;
    PutReads(r, MessageStart);
    PutReads(Open(r), TextStart);
    PutReads(r, BlockStop(r.toolIdx));
    PutReads(r, BlockStop(0));
  }

  /** The only open tool block is the last call's. */
  predicate Tracks(r: Render, rd: Reader) {
    && r.toolIdx >= 0
    && (r.toolIdx == 0 <==> rd.calls == [])
    && rd.blocks == if r.toolIdx == 0 then map[] else map[r.toolIdx := |rd.calls| - 1]
  }

  lemma StartToolReads(r: Render, t: ToolDelta)
    requires Tracks(r, Reading(r.out))
    ensures var rd, s := Reading(r.out), StartTool(r, t);
            && ReadText(s.out) == ReadText(r.out) && Tracks(s, Reading(s.out))
            && Reading(s.out).calls
               == if t.name == "" then rd.calls else rd.calls + [Call(BlockIndex(t.index), t.id, t.name, "")]
  {
    hide ReadText, Reading;
    FramingReads(r);
    FramingReads(CloseTool(r));
    assert Reading(CloseText(CloseTool(r)).out).blocks == map[] || t.name == "";
    PutReads(CloseText(CloseTool(r)), ToolStart(BlockIndex(t.index), t.id, t.name));
  }

  lemma EmitReads(r: Render, c: Chunk)
    requires Tracks(r, Reading(r.out))
    ensures ReadText(Emit(r, c).out) == ReadText(r.out) + if c.tool.None? then c.delta else ""
    ensures c.tool.None? ==> ReadCalls(Emit(r, c).out) == ReadCalls(r.out)
    ensures c.tool.Some? ==>
              var t := c.tool.value;
              var calls := ReadCalls(r.out);
              var started := if t.name == "" then calls else calls + [Call(BlockIndex(t.index), t.id, t.name, "")];
              ReadCalls(Emit(r, c).out) == AddArgs(started, t.args)
    ensures Tracks(Emit(r, c), Reading(Emit(r, c).out))
  {
    hide ReadText, Reading, StartTool, CloseTool, CloseText;
    FramingReads(r);
    match c.tool
    case Some(t) =>
      StartToolReads(Open(r), t);
      var s := StartTool(Open(r), t);
      PutReads(s, ArgsDelta(s.toolIdx, t.args));
      NoArgs(Reading(s.out).calls);
    case None =>
      PutReads(OpenText(r), TextDelta(c.delta));
  }

  lemma NoArgs(calls: seq<Call>)
    ensures AddArgs(calls, "") == calls
  {
    if calls != [] {
      var last := calls[|calls| - 1];
      assert last.args + "" == last.args;
    }
  }

  /** What a client reads is what arrived: the plain text in order, and every tool call with the
      fragments that followed it. */
  lemma {:induction false} ReadsBack(cs: seq<Chunk>)
    ensures ReadText(Run(cs).out) == PlainText(cs) && ReadCalls(Run(cs).out) == Calls(cs)
    ensures Tracks(Run(cs), Reading(Run(cs).out))
  {
    hide Emit;
    if cs != [] {
      ReadsBack(cs[..|cs| - 1]);
      EmitReads(Run(cs[..|cs| - 1]), cs[|cs| - 1]);
    }
  }

  lemma ReadsBackToTheEnd(cs: seq<Chunk>, stop: StopReason, usage: Option<Usage>)
    ensures var out := Finish(Run(cs), stop, usage).out;
            && ReadText(out) == PlainText(cs) && ReadCalls(out) == Calls(cs)
            && out[|out| - 2] == MessageDelta(StopToAnthropic(stop), usage)
  {
    hide Run, ReadText, Reading, PlainText, Calls;
    ReadsBack(cs);
    var r := Run(cs);
    FramingReads(r);
    FramingReads(Open(r));
    FramingReads(CloseTool(Open(r)));
    var closed := CloseText(CloseTool(Open(r)));
    var delta := MessageDelta(StopToAnthropic(stop), usage);
    PutReads(closed, delta);
    PutReads(Put(closed, delta), MessageStop);
  }

  /** Text is lost exactly when some chunk carries both text and a tool delta. */
  lemma {:induction false} TextLostExactly(cs: seq<Chunk>)
    ensures |PlainText(cs)| <= |Text(cs)|
    ensures PlainText(cs) == Text(cs) <==> forall c | c in cs :: c.tool.Some? ==> c.delta == ""
  {
    if cs != [] {
      var init, last := cs[..|cs| - 1], cs[|cs| - 1];
      TextLostExactly(init);
      assert cs == init + [last];
      assert forall c :: c in cs <==> c in init || c == last;
      assert last in cs;
      if last.tool.None? {
        SameSuffix(PlainText(init), Text(init), last.delta);
      } else if last.delta != "" {
        assert |PlainText(cs)| < |Text(cs)|;
      } else {
        assert PlainText(cs) == PlainText(init) && Text(cs) == Text(init);
      }
    }
  }

  /** It happens: a chunk that names a tool and carries text. */
  lemma TextCanBeLost()
    ensures var c := Chunk("hi", Unknown, None, false, None, Some(ToolDelta(0, "call_1", "f", "")));
            Text([c]) == "hi" && ReadText(Run([c]).out) == ""
  {
    var c := Chunk("hi", Unknown, None, false, None, Some(ToolDelta(0, "call_1", "f", "")));
    assert [c][..0] == [] && "" + "hi" == "hi";
    ReadsBack([c]);
    assert PlainText([]) == "" && Text([]) == "";
    assert PlainText([c]) == "" && Text([c]) == "hi";
  }

  /** It happens: text after a tool call opens a second block beside the tool's. */
  lemma BlocksCanOverlap()
    ensures var call := Chunk("", Unknown, None, false, None, Some(ToolDelta(0, "call_1", "f", "")));
            var text := Chunk("hi", Unknown, None, false, None, None);
            && Run([call, text]).out == [MessageStart, ToolStart(1, "call_1", "f"), TextStart, TextDelta("hi")]
            && !Narrow(Run([call, text]).out)
  {
    var call := Chunk("", Unknown, None, false, None, Some(ToolDelta(0, "call_1", "f", "")));
    var text := Chunk("hi", Unknown, None, false, None, None);
    assert [call, text][..1] == [call] && [call][..0] == [];
    assert Run([]) == START;
    assert Run([call]) == Emit(START, call);
    assert Run([call, text]) == Emit(Run([call]), text);
    assert Run([call]).out == [MessageStart, ToolStart(1, "call_1", "f")];
    OneBlockAtATime([call, text]);
    assert Named([call, text][0]) && Textual([call, text][1]);
  }
}

/** pumpStream of server/internal/relay/stream.go: the variables its closures share and the loop that
    drains the upstream events, for the two output formats with framing of their own. */
module StreamPump {
  import opened Prelude
  import opened UsageAccounting
  import opened EventStream
  import opened StreamChunks
  import A = AnthropicStream
  import B = BedrockStream

  datatype Format = ToAnthropic | ToBedrock

  class Pump {
    const format: Format
    const json: Json
    const crc: Checksum

    var finalUsage: UsageCell?
    var completion: string
    var anthOpened: bool
    var anthTextOpen: bool
    var anthToolIdx: int
    var bedrockOpened: bool
    var finalStop: StopReason
    var fatalErr: Option<int>

    /** The server-sent events written, for Anthropic output. */
    var events: seq<A.Event>

    /** The bytes written, for Bedrock output. */
    var wire: Bytes

    /** The frames those bytes are. */
    ghost var frames: seq<Frame>

    ghost predicate Valid()
      reads this
    {
      wire == EncodeAll(frames, crc)
    }

    ghost function Totals(): Account
      reads this, finalUsage
    {
      Account(Pointed(finalUsage), completion, finalStop)
    }

    ghost function Anthropic(): A.Render
      reads this
    {
      A.Render(anthOpened, anthTextOpen, anthToolIdx, events)
    }

    ghost function Bedrock(): B.Render
      reads this
    {
      B.Render(bedrockOpened, frames)
    }

    constructor (format: Format, json: Json, crc: Checksum)
      ensures Valid() && Totals() == NO_ACCOUNT && Anthropic() == A.START && Bedrock() == B.START
      ensures finalUsage == null && fatalErr == None
      ensures this.format == format && this.json == json && this.crc == crc
    {
      this.format, this.json, this.crc := format, json, crc;
      finalUsage, completion, finalStop, fatalErr := null, "", Unknown, None;
      anthOpened, anthTextOpen, anthToolIdx, bedrockOpened := false, false, 0, false;
      events, wire, frames := [], [], [];
    }

    // ---------------------------------------------------------------- Anthropic output

    method WriteEvent(e: A.Event)
      modifies this`events
      ensures Anthropic() == A.Put(old(Anthropic()), e)
    {
      events := events + [e];
    }

    method EmitAnthropicPrelude()
      modifies this`events, this`anthOpened
      ensures Anthropic() == A.Open(old(Anthropic()))
    {
      if anthOpened {
        return;
      }
      anthOpened := true;
      WriteEvent(A.MessageStart);
    }

    method OpenAnthropicText()
      modifies this`events, this`anthOpened, this`anthTextOpen
      ensures Anthropic() == A.OpenText(old(Anthropic()))
    {
      EmitAnthropicPrelude();
      if anthTextOpen {
        return;
      }
      anthTextOpen := true;
      WriteEvent(A.TextStart);
    }

    method CloseAnthToolBlock()
      modifies this`events, this`anthToolIdx
      ensures Anthropic() == A.CloseTool(old(Anthropic()))
    {
      if anthToolIdx > 0 {
        WriteEvent(A.BlockStop(anthToolIdx));
        anthToolIdx := 0;
      }
    }

    method EmitAnthropic(chunk: Chunk)
      modifies this`events, this`anthOpened, this`anthTextOpen, this`anthToolIdx
      ensures Anthropic() == A.Emit(old(Anthropic()), chunk)
    {
      if chunk.tool.Some? {
        var tc := chunk.tool.value;
        EmitAnthropicPrelude();
        if tc.name != "" {
          CloseAnthToolBlock();
          if anthTextOpen {
            WriteEvent(A.BlockStop(0));
            anthTextOpen := false;
          }
          anthToolIdx := tc.index + 1;
          if anthToolIdx < 1 {
            anthToolIdx := 1;
          }
          WriteEvent(A.ToolStart(anthToolIdx, tc.id, tc.name));
        }
        if tc.args != "" && anthToolIdx > 0 {
          WriteEvent(A.ArgsDelta(anthToolIdx, tc.args));
        }
        return;
      }
      if chunk.delta != "" {
        OpenAnthropicText();
        WriteEvent(A.TextDelta(chunk.delta));
        return;
      }
    }

    // ---------------------------------------------------------------- Bedrock output

    method WriteBedrockFrame(eventType: Bytes, body: Body)
      requires Valid()
      modifies this`wire, this`frames
      ensures Valid() && Bedrock() == B.Put(json, old(Bedrock()), eventType, body)
    {
      hide EncodeFrame, EncodeAll;
      var payload := json.encode(body);
      var bytes := EncodeBedrockFrame(eventType, payload, crc);
      EncodeSnoc(frames, Frame(eventType, payload), crc);
      wire := wire + bytes;
      frames := frames + [Frame(eventType, payload)];
    }

    method EmitBedrockPrelude()
      requires Valid()
      modifies this`wire, this`frames, this`bedrockOpened
      ensures Valid() && Bedrock() == B.Open(json, old(Bedrock()))
    {
      if bedrockOpened {
        return;
      }
      bedrockOpened := true;
      WriteBedrockFrame(MESSAGE_START, NO_BODY);
      WriteBedrockFrame(BLOCK_START, NO_BODY);
    }

    method EmitBedrock(chunk: Chunk)
      requires Valid()
      modifies this`wire, this`frames, this`bedrockOpened
      ensures Valid() && Bedrock() == B.Emit(json, old(Bedrock()), chunk)
    {
      if chunk.delta == "" {
        return;
      }
      EmitBedrockPrelude();
      WriteBedrockFrame(BLOCK_DELTA, B.TextBody(chunk.delta));
    }

    // ---------------------------------------------------------------- the loop

    /** Accounting for one live chunk: usage is merged in place, text and stop reason kept. */
    method CountChunk(chunk: Chunk)
      modifies this`finalUsage, this`completion, this`finalStop, finalUsage
      ensures Totals() == Count(old(Totals()), chunk)
      ensures finalUsage == old(finalUsage) || fresh(finalUsage)
    {
      if chunk.usage.Some? {
        finalUsage := MergeStreamUsage(finalUsage, chunk.usage.value);
      }
      if chunk.delta != "" {
        completion := completion + chunk.delta;
      }
      if chunk.stop != Unknown {
        finalStop := chunk.stop;
      }
    }

    /** One upstream event. A malformed one is skipped, a fatal one only recorded. */
    method Process(p: Parsed)
      requires Valid()
      modifies this, finalUsage
      ensures Valid() && (finalUsage == old(finalUsage) || fresh(finalUsage))
      ensures fatalErr == if IsFatal(p) then p.chunk.fatal else old(fatalErr)
      ensures Totals() == if p.Skip? || IsFatal(p) then old(Totals()) else Count(old(Totals()), p.chunk)
      ensures var shown := p.Parsed? && p.chunk.fatal.None? && (p.meaningful || p.chunk.done);
              && Anthropic() == (if shown && format.ToAnthropic? then A.Emit(old(Anthropic()), p.chunk)
                                 else old(Anthropic()))
              && Bedrock() == (if shown && format.ToBedrock? then B.Emit(json, old(Bedrock()), p.chunk)
                               else old(Bedrock()))
    {
      hide A.Emit, B.Emit, Count;
      if p.Skip? {
        return;
      }
      var chunk := p.chunk;
      if chunk.fatal.Some? {
        fatalErr := chunk.fatal;
        return;
      }
      CountChunk(chunk);
      if !p.meaningful && !chunk.done {
        return;
      }
      if format.ToAnthropic? {
        EmitAnthropic(chunk);
        return;
      }
      EmitBedrock(chunk);
    }

    method TerminateAnthropic(usage: Option<Usage>)
      modifies this`events, this`anthOpened, this`anthTextOpen, this`anthToolIdx
      ensures Anthropic() == A.Finish(old(Anthropic()), finalStop, usage)
    {
      if !anthOpened {
        EmitAnthropicPrelude();
      }
      CloseAnthToolBlock();
      if anthTextOpen {
        WriteEvent(A.BlockStop(0));
        anthTextOpen := false;
      }
      WriteEvent(A.MessageDelta(StopToAnthropic(finalStop), usage));
      WriteEvent(A.MessageStop);
    }

    method TerminateBedrock(usage: Option<Usage>)
      requires Valid()
      modifies this`wire, this`frames, this`bedrockOpened
      ensures Valid() && Bedrock() == B.Finish(json, old(Bedrock()), finalStop, usage)
    {
      hide Pump.Valid, B.StopBody, B.UsageBody;
      if !bedrockOpened {
        EmitBedrockPrelude();
      }
      WriteBedrockFrame(BLOCK_STOP, NO_BODY);
      WriteBedrockFrame(MESSAGE_STOP, B.StopBody(finalStop));
      WriteBedrockFrame(METADATA, B.UsageBody(usage));
    }

    /** The terminal framing, written however the stream ended. */
    method Terminate()
      requires Valid()
      modifies this`events, this`anthOpened, this`anthTextOpen, this`anthToolIdx
      modifies this`wire, this`frames, this`bedrockOpened
      ensures Valid()
      ensures Anthropic() == if format.ToAnthropic? then A.Finish(old(Anthropic()), finalStop, Pointed(finalUsage))
                             else old(Anthropic())
      ensures Bedrock() == if format.ToBedrock? then B.Finish(json, old(Bedrock()), finalStop, Pointed(finalUsage))
                           else old(Bedrock())
    {
      hide A.Finish, B.Finish;
      var usage := None;
      if finalUsage != null {
        usage := Some(finalUsage.Value());
      }
      if format.ToAnthropic? {
        TerminateAnthropic(usage);
      } else {
        TerminateBedrock(usage);
      }
    }

    /** A whole stream: the upstream sends these events and then ends, cleanly or with an error; the
        client leaves after some of them, or stays for all. A read error of the upstream is fatal
        only when the loop reaches the end of the events. */
    method Run(upstream: seq<Parsed>, clientStays: nat, readErr: Option<int>)
      requires Valid() && Totals() == NO_ACCOUNT && Anthropic() == A.START && Bedrock() == B.START
      requires finalUsage == null && fatalErr == None
      modifies this
      ensures Valid()
      ensures var ps := upstream[..Min(clientStays, |upstream|)];
              var stop, usage := LastStop(Live(ps)), Fold(Usages(Live(ps)));
              && Totals() == CountAll(Live(ps)) == Account(usage, Text(Live(ps)), stop)
              && Anthropic() == (if format.ToAnthropic? then A.Finish(A.Run(Shown(ps)), stop, usage) else A.START)
              && Bedrock() == (if format.ToBedrock? then B.Finish(json, B.Run(json, Shown(ps)), stop, usage)
                               else B.START)
              && (fatalErr.Some? <==> (exists p | p in ps :: IsFatal(p)) || (clientStays > |upstream| && readErr.Some?))
    {
      hide A.Emit, A.Finish, A.Run, B.Emit, B.Finish, B.Run, EncodeAll;
      hide Count, CountAll, Live, Shown, LastStop, Usages, Text, Fold;
      Beginning(json);
      var i := 0;
      ghost var n := Min(clientStays, |upstream|);
      while i < Min(clientStays, |upstream|) && fatalErr.None?
        invariant 0 <= i <= Min(clientStays, |upstream|) && Valid()
        invariant finalUsage == null || fresh(finalUsage)
        invariant fatalErr.Some? <==> exists p | p in upstream[..i] :: IsFatal(p)
        invariant Totals() == CountAll(Live(upstream[..i]))
        invariant Anthropic() == if format.ToAnthropic? then A.Run(Shown(upstream[..i])) else A.START
        invariant Bedrock() == if format.ToBedrock? then B.Run(json, Shown(upstream[..i])) else B.START
      {
        Next(json, upstream[..i], upstream[i]);
        OneMore(upstream, i);
        Process(upstream[i]);
        i := i + 1;
      }
      Stopped(upstream, i, n);
      if fatalErr.None? && clientStays > |upstream| && readErr.Some? {
        fatalErr := readErr;
      }
      CountMeaning(Live(upstream[..n]));
      Terminate();
    }
  }

  lemma {:induction false} EncodeSnoc(fs: seq<Frame>, f: Frame, crc: Checksum)
    ensures EncodeAll(fs + [f], crc) == EncodeAll(fs, crc) + EncodeFrame(f, crc)
  {
    hide EncodeFrame;
    if fs == [] {
      assert fs + [f] == [f] && [f][1..] == [];
      assert EncodeAll([], crc) == [];
    } else {
      assert (fs + [f])[1..] == fs[1..] + [f];
      EncodeSnoc(fs[1..], f, crc);
    }
  }

  lemma Beginning(json: Json)
    ensures Live([]) == [] && Shown([]) == [] && CountAll([]) == NO_ACCOUNT
    ensures A.Run([]) == A.START && B.Run(json, []) == B.START
  {
  }

  /** One more event, when none so far was fatal. */
  lemma Next(json: Json, ps: seq<Parsed>, p: Parsed)
    requires forall q | q in ps :: !IsFatal(q)
    ensures CountAll(Live(ps + [p]))
            == if p.Skip? || IsFatal(p) then CountAll(Live(ps)) else Count(CountAll(Live(ps)), p.chunk)
    ensures A.Run(Shown(ps + [p]))
            == if Forwards(p) && !IsFatal(p) then A.Emit(A.Run(Shown(ps)), p.chunk) else A.Run(Shown(ps))
    ensures B.Run(json, Shown(ps + [p]))
            == if Forwards(p) && !IsFatal(p) then B.Emit(json, B.Run(json, Shown(ps)), p.chunk)
               else B.Run(json, Shown(ps))
  {
    hide Count, A.Emit, B.Emit;
    var all := ps + [p];
    assert all[..|all| - 1] == ps && all[|all| - 1] == p;
    if p.Parsed? {
      assert (Live(ps) + [p.chunk])[..|Live(ps)|] == Live(ps);
      assert (Shown(ps) + [p.chunk])[..|Shown(ps)|] == Shown(ps);
    }
  }

  lemma OneMore(ps: seq<Parsed>, i: nat)
    requires i < |ps|
    ensures ps[..i + 1] == ps[..i] + [ps[i]]
    ensures forall p :: p in ps[..i + 1] <==> p in ps[..i] || p == ps[i]
  {
    assert ps[..i + 1] == ps[..i] + [ps[i]];
  }

  /** The loop stopped after i of n events, at a fatal one or at the last. */
  lemma Stopped(ps: seq<Parsed>, i: nat, n: nat)
    requires i <= n <= |ps| && (i == n || exists p | p in ps[..i] :: IsFatal(p))
    ensures Live(ps[..n]) == Live(ps[..i]) && Shown(ps[..n]) == Shown(ps[..i])
    ensures (exists p | p in ps[..n] :: IsFatal(p)) <==> exists p | p in ps[..i] :: IsFatal(p)
  {
    hide Live, Shown;
    assert ps[..n][..i] == ps[..i];
    assert forall p | p in ps[..i] :: p in ps[..n];
    Frozen(ps[..n], i);
  }

  /** Nothing after a fatal event counts. */
  lemma {:induction false} Frozen(ps: seq<Parsed>, i: nat)
    requires i <= |ps| && (i == |ps| || exists p | p in ps[..i] :: IsFatal(p))
    ensures Live(ps) == Live(ps[..i]) && Shown(ps) == Shown(ps[..i])
  {
    assert ps[..|ps|] == ps;
    if i < |ps| {
      var init := ps[..|ps| - 1];
      assert init[..i] == ps[..i];
      assert forall p | p in ps[..i] :: p in init;
      Frozen(init, i);
    }
  }

  /** The whole of the Anthropic rendering, from the upstream's events to what the client reads. */
  lemma AnthropicEndToEnd(ps: seq<Parsed>)
    ensures var stop, usage := LastStop(Live(ps)), Fold(Usages(Live(ps)));
            var out := A.Finish(A.Run(Shown(ps)), stop, usage).out;
            && A.Viewed(out) == A.Ended
            && A.ReadText(out) == A.PlainText(Shown(ps)) && A.ReadCalls(out) == A.Calls(Shown(ps))
            && (A.Narrow(out) <==> A.TextFirst(Shown(ps)))
  {
    hide A.Run, A.Finish, A.ReadText, A.ReadCalls, A.PlainText, A.Calls, A.Viewed, A.Narrow, A.TextFirst;
    var stop, usage := LastStop(Live(ps)), Fold(Usages(Live(ps)));
    A.ProtocolKept(Shown(ps), stop, usage);
    A.ReadsBackToTheEnd(Shown(ps), stop, usage);
    A.OneBlockToTheEnd(Shown(ps), stop, usage);
  }

  /** The whole of the Bedrock rendering: what a client of the same protocol reads from the bytes is
      the text, the stop reason and the usage that the pump accounted for, but no tool call. */
  lemma BedrockEndToEnd(json: Json, ps: seq<Parsed>, crc: Checksum)
    requires Lawful(json) && forall p | p in ps :: p.Parsed? && p.chunk.delta != "" ==> Forwards(p)
    requires var totals := CountAll(Live(ps));
             forall f | f in B.Finish(json, B.Run(json, Shown(ps)), totals.stop, totals.usage).frames :: Fits(f)
    ensures var totals := CountAll(Live(ps));
            var d := Decode(EncodeAll(B.Finish(json, B.Run(json, Shown(ps)), totals.stop, totals.usage).frames, crc));
            && d.end == Clean
            && B.Reread(json, d.events)
               == Account(Some(B.RereadUsage(totals.usage)), totals.completion, OrEndTurn(totals.stop))
            && B.ToolDeltas(Live(B.ParseAll(json, d.events))) == []
  {
    hide B.Run, B.Finish, B.Reread, B.RereadUsage, Decode, EncodeAll, Fits, Lawful;
    hide Live, Shown, Dropped, LastStop, Usages, Fold;
    var totals := CountAll(Live(ps));
    CountMeaning(Live(ps));
    NothingWithTextDropped(ps);
    TextIsShownExactly(ps);
    B.BytesRereadToTheSource(json, Shown(ps), totals.stop, totals.usage, crc);
    B.ToolCallsAreLost(json, Shown(ps), totals.stop, totals.usage);
  }
}

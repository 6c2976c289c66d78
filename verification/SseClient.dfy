/** The browser's consumer of a streamed answer: streamChat in web/src/api/stream.js. Text is what the
    decoder has produced; parsing a payload is a parameter. */
module SseClient {
  import opened Prelude
  import opened Text

  /** What a data payload parses to: no JSON, an object with a truthy error, or anything else with
      its usage and delta text, if any. */
  datatype Payload = NotJson | ErrorObject(message: string) | Object(usage: Option<string>, text: string)

  type Parse = string -> Payload

  datatype End = Running | Finished | Failed(message: string)

  /** What a caller has been told: the deltas, the last usage, and how it ended. */
  datatype Outcome = Outcome(deltas: seq<string>, usage: Option<string>, end: End)

  const START: Outcome := Outcome([], None, Running)

  // ------------------------------------------------------------------ reference: line by line

  /** The payload of a data line. */
  function Data(line: string): Option<string> {
    var t := TrimLeft(line);
    if |t| >= 5 && t[..5] == "data:" then Some(Trim(t[5..])) else None
  }

  function OnLine(parse: Parse, o: Outcome, line: string): Outcome {
    if o.end != Running then o
    else
      match Data(line)
      case None => o
      case Some(data) =>
        if data == "" then o
        else if data == "[DONE]" then o.(end := Finished)
        else
          match parse(data)
          case NotJson => o
          case ErrorObject(message) => o.(end := Failed(message))
          case Object(usage, text) =>
            o.(usage := if usage.Some? then usage else o.usage,
               deltas := if text != "" then o.deltas + [text] else o.deltas)
  }

  function OnLines(parse: Parse, o: Outcome, lines: seq<string>): Outcome
    decreases |lines|
  {
    if lines == [] then o else OnLines(parse, OnLine(parse, o, lines[0]), lines[1..])
  }

  /** String.prototype.indexOf of a line feed. */
  function FirstNewline(s: string): (i: nat)
    ensures i <= |s| && '\n' !in s[..i] && (i < |s| ==> s[i] == '\n')
  {
    if s == "" || s[0] == '\n' then 0 else 1 + FirstNewline(s[1..])
  }

  function Lines(s: string): (r: seq<string>)
    ensures r != []
    decreases |s|
  {
    var i := FirstNewline(s);
    if i == |s| then [s] else [s[..i]] + Lines(s[i + 1..])
  }

  function Feed(parse: Parse, o: Outcome, text: string): Outcome { OnLines(parse, o, Lines(text)) }

  /** The whole of a text: its lines in order, and then the end of the stream. */
  function Consumed(parse: Parse, text: string): Outcome {
    var o := Feed(parse, START, text);
    if o.end == Running then o.(end := Finished) else o
  }

  function Join(lines: seq<string>): string
    requires lines != []
  {
    if |lines| == 1 then lines[0] else lines[0] + "\n" + Join(lines[1..])
  }

  /** The lines of a text have no line feed in them and give the text back, joined by line feeds. */
  lemma {:induction false} LinesJoin(s: string)
    ensures Join(Lines(s)) == s && forall l | l in Lines(s) :: '\n' !in l
    decreases |s|
  {
    var i := FirstNewline(s);
    if i < |s| {
      LinesJoin(s[i + 1..]);
      assert Lines(s)[1..] == Lines(s[i + 1..]);
      assert s == s[..i] + "\n" + s[i + 1..];
    } else {
      assert s[..i] == s;
    }
  }

  // ------------------------------------------------------------------ the consumer

  function Concat(chunks: seq<string>): string {
    if chunks == [] then "" else chunks[0] + Concat(chunks[1..])
  }

  /** buffer.replace(/\r\n/g, '\n') */
  function Normalize(s: string): string {
    if s == "" then ""
    else if |s| >= 2 && s[0] == '\r' && s[1] == '\n' then "\n" + Normalize(s[2..])
    else [s[0]] + Normalize(s[1..])
  }

  /** A text without CRLF stays as it is. */
  lemma {:induction false} NothingToNormalize(s: string)
    requires forall i | 0 <= i < |s| - 1 :: !(s[i] == '\r' && s[i + 1] == '\n')
    ensures Normalize(s) == s
  {
    if s != "" {
      NothingToNormalize(s[1..]);
      assert s == [s[0]] + s[1..];
    }
  }

  /** A CRLF becomes a line feed, whatever stands before and after it. */
  lemma {:induction false} CrLfNormalized(a: string, b: string)
    ensures Normalize(a + "\r\n" + b) == Normalize(a) + "\n" + Normalize(b)
    decreases |a|
  {
    var whole := a + "\r\n" + b;
    if a == "" {
      assert whole[2..] == b && "" + "\n" == "\n";
    } else if |a| >= 2 && a[0] == '\r' && a[1] == '\n' {
      assert whole[2..] == a[2..] + "\r\n" + b;
      CrLfNormalized(a[2..], b);
    } else {
      assert whole[1..] == a[1..] + "\r\n" + b;
      CrLfNormalized(a[1..], b);
    }
  }

  predicate BlankLineAt(s: string, i: nat) { i + 2 <= |s| && s[i..i + 2] == "\n\n" }

  /** The index of the first blank line, if there is one. */
  method IndexOfBlankLine(s: string) returns (at: Option<nat>)
    ensures at.Some? ==> BlankLineAt(s, at.value) && forall i: nat | i < at.value :: !BlankLineAt(s, i)
    ensures at.None? ==> forall i: nat :: !BlankLineAt(s, i)
  {
    var i := 0;
    while i + 2 <= |s|
      invariant forall k: nat | k < i :: !BlankLineAt(s, k)
    {
      if s[i..i + 2] == "\n\n" {
        return Some(i);
      }
      i := i + 1;
    }
    return None;
  }

  datatype Signal = Continue | Done | Thrown(message: string)

  class StreamChat {
    const parse: Parse
    var finished: bool
    var lastUsage: Option<string>
    var buffer: string

    /** The calls made to onDelta, onDone and onError. */
    var deltas: seq<string>
    var done: seq<Option<string>>
    var errors: seq<string>

    constructor (parse: Parse)
      ensures this.parse == parse && Valid() && State() == START
    {
      this.parse, finished, lastUsage, buffer, deltas, done, errors := parse, false, None, "", [], [], [];
    }

    /** At most one of onDone and onError is called, and once; onDone with the last usage. */
    ghost predicate Valid()
      reads this`done, this`finished, this`lastUsage, this`errors
    {
      && done == (if finished then [lastUsage] else [])
      && |errors| <= 1 && (finished ==> errors == [])
    }

    ghost function State(): Outcome
      reads this`deltas, this`lastUsage, this`finished, this`errors
    {
      Outcome(deltas, lastUsage, if finished then Finished else if errors != [] then Failed(errors[0]) else Running)
    }

    method Finish()
      requires Valid() && errors == []
      modifies this`finished, this`done
      ensures Valid() && State() == old(State()).(end := Finished)
    {
      if finished {
        return;
      }
      finished := true;
      done := done + [lastUsage];
    }

    /** One event: its lines in order, up to the first that ends the stream. */
    method HandleEvent(raw: string) returns (signal: Signal)
      requires Valid() && State().end == Running
      modifies this`finished, this`done, this`deltas, this`lastUsage
      ensures Valid() && errors == old(errors)
      ensures !signal.Thrown? ==> State() == OnLines(parse, old(State()), Lines(raw))
      ensures signal.Thrown? ==>
                !finished && State().(end := Failed(signal.message)) == OnLines(parse, old(State()), Lines(raw))
      ensures signal.Done? <==> finished
    {
      hide OnLine;
      var lines := Lines(raw);
      ghost var all := OnLines(parse, State(), lines);
      assert lines[0..] == lines;
      for i := 0 to |lines|
        invariant Valid() && State().end == Running && errors == old(errors)
        invariant all == OnLines(parse, State(), lines[i..])
      {
        LineMeaning(parse, State(), lines[i]);
        assert lines[i..][1..] == lines[i + 1..];
        var trimmed := TrimLeft(lines[i]);
        if !(|trimmed| >= 5 && trimmed[..5] == "data:") {
          continue;
        }
        var data := Trim(trimmed[5..]);
        if data == "" {
          continue;
        }
        if data == "[DONE]" {
          Finish();
          EndedStays(parse, State(), lines[i + 1..]);
          return Done;
        }
        var obj := parse(data);
        match obj {
          case NotJson => continue;
          case ErrorObject(message) =>
            EndedStays(parse, State().(end := Failed(message)), lines[i + 1..]);
            return Thrown(message);
          case Object(usage, text) =>
            if usage.Some? {
              lastUsage := usage;
            }
            if text != "" {
              deltas := deltas + [text];
            }
        }
      }
      assert lines[|lines|..] == [];
      return Continue;
    }

    /** The catch clause, for an error thrown while handling an event. */
    method OnError(message: string)
      requires Valid() && State().end == Running
      modifies this`errors
      ensures Valid() && State() == old(State()).(end := Failed(message))
    {
      errors := errors + [message];
    }

    /** The read loop. Whatever the chunks, the caller is told exactly what the lines of their
        concatenation say, and in the end one of onDone and onError is called, once. */
    method Run(chunks: seq<string>)
      requires Valid() && State() == START && buffer == ""
      modifies this
      ensures Valid() && State() == Consumed(parse, Concat(chunks))
      ensures |done| + |errors| == 1 && (done == [lastUsage] || done == [])
    {
      hide Feed, Normalize, Lines, OnLines, Valid, State;
      ghost var all := Feed(parse, START, Concat(chunks));
      var i := 0;
      assert chunks[0..] == chunks && "" + Concat(chunks) == Concat(chunks);
      while i < |chunks|
        invariant 0 <= i <= |chunks|
        invariant Valid() && State().end == Running
        invariant all == Feed(parse, State(), buffer + Concat(chunks[i..]))
      {
        ghost var rest := Concat(chunks[i + 1..]);
        assert chunks[i..][0] == chunks[i] && chunks[i..][1..] == chunks[i + 1..];
        assert buffer + (chunks[i] + rest) == (buffer + chunks[i]) + rest;
        buffer := buffer + chunks[i];
        NormalizeIsHarmless(parse, State(), buffer, rest);
        buffer := Normalize(buffer);
        var ended := Drain(rest);
        if ended {
          ToldOnce();
          return;
        }
        i := i + 1;
      }
      assert Concat(chunks[i..]) == "" && buffer + "" == buffer;
      if Trim(buffer) != "" {
        var ended := HandleLast();
        if ended {
          ToldOnce();
          return;
        }
      } else {
        BlankIsNothing(parse, State(), buffer);
      }
      NoErrorYet();
      Finish();
      ToldOnce();
    }

    /** Once it has ended, one of the two has been called, and not the other. */
    lemma ToldOnce()
      requires Valid() && State().end != Running
      ensures |done| + |errors| == 1 && (done == [lastUsage] || done == [])
    {
    }

    /** While nothing has ended, no error has been reported. */
    lemma NoErrorYet()
      requires Valid() && State().end == Running
      ensures errors == []
    {
    }

    /** The inner loop: every complete event of the buffer is handled and dropped, none is kept back. */
    method Drain(ghost rest: string) returns (ended: bool)
      requires Valid() && State().end == Running
      modifies this
      ensures Valid() && (ended <==> State().end != Running)
      ensures !ended ==> forall i: nat :: !BlankLineAt(buffer, i)
      ensures old(Feed(parse, State(), buffer + rest)) == if ended then State() else Feed(parse, State(), buffer + rest)
    {
      hide Feed, Lines, OnLines, State, Valid;
      ghost var all := Feed(parse, State(), buffer + rest);
      while true
        invariant Valid() && State().end == Running
        invariant all == Feed(parse, State(), buffer + rest)
        decreases |buffer|
      {
        var sep := IndexOfBlankLine(buffer);
        if sep.None? {
          return false;
        }
        var rawEvent := buffer[..sep.value];
        FeedEvent(parse, State(), buffer, sep.value, rest);
        buffer := buffer[sep.value + 2..];
        ended := HandleAndReport(rawEvent, buffer + rest);
        if ended {
          return;
        }
      }
    }

    /** One event with the catch clause around it. */
    method HandleAndReport(raw: string, ghost more: string) returns (ended: bool)
      requires Valid() && State().end == Running
      modifies this`finished, this`done, this`deltas, this`lastUsage, this`errors
      ensures Valid() && (ended <==> State().end != Running)
      ensures State() == OnLines(parse, old(State()), Lines(raw))
      ensures ended ==> Feed(parse, State(), more) == State()
    {
      hide OnLines, Lines;
      var signal := HandleEvent(raw);
      if signal.Thrown? {
        OnError(signal.message);
      }
      ended := !signal.Continue?;
      if ended {
        EndedStays(parse, State(), Lines(more));
      }
    }

    method HandleLast() returns (ended: bool)
      requires Valid() && State().end == Running
      modifies this`finished, this`done, this`deltas, this`lastUsage, this`errors
      ensures Valid() && (ended <==> State().end != Running)
      ensures State() == Feed(parse, old(State()), buffer)
    {
      hide OnLines, Lines;
      ended := HandleAndReport(buffer, "");
    }
  }

  // ------------------------------------------------------------------ why chunks do not matter

  /** The cases of one line, in the terms the consumer uses. */
  lemma LineMeaning(parse: Parse, o: Outcome, line: string)
    requires o.end == Running
    ensures var t := TrimLeft(line);
            if !(|t| >= 5 && t[..5] == "data:") then OnLine(parse, o, line) == o
            else
              var data := Trim(t[5..]);
              if data == "" then OnLine(parse, o, line) == o
              else if data == "[DONE]" then OnLine(parse, o, line) == o.(end := Finished)
              else
                var obj := parse(data);
                && (obj.NotJson? ==> OnLine(parse, o, line) == o)
                && (obj.ErrorObject? ==> OnLine(parse, o, line) == o.(end := Failed(obj.message)))
                && (obj.Object? ==>
                      OnLine(parse, o, line)
                      == o.(usage := if obj.usage.Some? then obj.usage else o.usage,
                            deltas := if obj.text != "" then o.deltas + [obj.text] else o.deltas))
  {
  }

  lemma {:induction false} EndedStays(parse: Parse, o: Outcome, lines: seq<string>)
    requires o.end != Running
    ensures OnLines(parse, o, lines) == o
    decreases |lines|
  {
    if lines != [] {
      EndedStays(parse, o, lines[1..]);
    }
  }

  lemma {:induction false} LinesAppend(parse: Parse, o: Outcome, a: seq<string>, b: seq<string>)
    ensures OnLines(parse, o, a + b) == OnLines(parse, OnLines(parse, o, a), b)
    decreases |a|
  {
    hide OnLine;
    if a == [] {
      assert a + b == b;
    } else {
      assert (a + b)[1..] == a[1..] + b;
      LinesAppend(parse, OnLine(parse, o, a[0]), a[1..], b);
    }
  }

  lemma LinesUnfold(s: string, i: nat)
    requires i < |s| && s[i] == '\n' && '\n' !in s[..i]
    ensures Lines(s) == [s[..i]] + Lines(s[i + 1..])
  {
    hide FirstNewline;
    NewlineAt(s, i);
  }

  lemma LinesWhole(s: string)
    requires '\n' !in s
    ensures Lines(s) == [s]
  {
    assert FirstNewline(s) == |s|;
  }

  /** A line feed separates the lines before it from the lines after it. */
  lemma {:induction false} SplitAtNewline(a: string, b: string)
    ensures Lines(a + "\n" + b) == Lines(a) + Lines(b)
    decreases |a|
  {
    hide Lines, FirstNewline;
    var whole, i := a + "\n" + b, FirstNewline(a);
    assert whole[..i] == a[..i];
    LinesUnfold(whole, i);
    if i == |a| {
      assert a[..i] == a && whole[i + 1..] == b;
      LinesWhole(a);
    } else {
      LinesUnfold(a, i);
      assert whole[i + 1..] == a[i + 1..] + "\n" + b;
      SplitAtNewline(a[i + 1..], b);
      assert [a[..i]] + (Lines(a[i + 1..]) + Lines(b)) == [a[..i]] + Lines(a[i + 1..]) + Lines(b);
    }
  }

  lemma {:induction false} NewlineAt(s: string, i: nat)
    requires i < |s| && s[i] == '\n' && '\n' !in s[..i]
    ensures FirstNewline(s) == i
  {
    if i > 0 {
      assert s[0] == s[..i][0] && s[1..][..i - 1] == s[..i][1..];
      NewlineAt(s[1..], i - 1);
    }
  }

  /** Handling the text up to a blank line and then the rest is handling it all. */
  lemma FeedEvent(parse: Parse, o: Outcome, buffer: string, at: nat, rest: string)
    requires at + 2 <= |buffer| && buffer[at..at + 2] == "\n\n"
    ensures Feed(parse, o, buffer + rest)
            == Feed(parse, OnLines(parse, o, Lines(buffer[..at])), buffer[at + 2..] + rest)
  {
    hide Lines, OnLines;
    var a, b := buffer[..at], buffer[at + 2..] + rest;
    assert buffer == buffer[..at] + buffer[at..at + 2] + buffer[at + 2..];
    assert buffer + rest == a + "\n" + ("" + "\n" + b);
    SplitAtNewline(a, "" + "\n" + b);
    SplitAtNewline("", b);
    LinesAppend(parse, o, Lines(a), Lines("") + Lines(b));
    LinesAppend(parse, OnLines(parse, o, Lines(a)), Lines(""), Lines(b));
    EmptyLine(parse, OnLines(parse, o, Lines(a)));
  }

  lemma EmptyLine(parse: Parse, o: Outcome)
    ensures OnLines(parse, o, Lines("")) == o
  {
    assert Lines("") == [""];
    assert OnLines(parse, o, [""]) == OnLines(parse, OnLine(parse, o, ""), []);
  }

  function StripCr(line: string): string {
    if line != "" && line[|line| - 1] == '\r' then line[..|line| - 1] else line
  }

  lemma {:induction false} NormalizeLine(line: string, rest: string)
    requires '\n' !in line
    ensures Normalize(line + "\n" + rest) == StripCr(line) + "\n" + Normalize(rest)
  {
    var whole := line + "\n" + rest;
    if line == "" {
      assert whole[1..] == rest && whole == "\n" + rest;
    } else if line == "\r" {
      assert whole[2..] == rest;
    } else {
      assert |line| > 1 ==> whole[1] == line[1] && line[1] in line;
      assert whole[0] == line[0] && whole[1..] == line[1..] + "\n" + rest;
      NormalizeLine(line[1..], rest);
      assert StripCr(line) == [line[0]] + StripCr(line[1..]);
    }
  }

  lemma {:induction false} NormalizeWithoutNewline(s: string)
    requires '\n' !in s
    ensures Normalize(s) == s
  {
    if s != "" {
      NormalizeWithoutNewline(s[1..]);
      assert s == [s[0]] + s[1..];
    }
  }

  /** Turning CR LF into LF in what has arrived so far changes no outcome, whatever follows: even
      when a CR LF is split between chunks, or several CRs stand before a LF. */
  lemma {:induction false} NormalizeIsHarmless(parse: Parse, o: Outcome, b: string, rest: string)
    ensures Feed(parse, o, Normalize(b) + rest) == Feed(parse, o, b + rest)
    decreases |b|
  {
    hide Lines, OnLines, Normalize, OnLine;
    var i := FirstNewline(b);
    if i == |b| {
      assert b[..i] == b;
      NormalizeWithoutNewline(b);
    } else {
      var line, more := b[..i], b[i + 1..];
      assert b == line + "\n" + more;
      NormalizeLine(line, more);
      assert Normalize(b) + rest == StripCr(line) + "\n" + (Normalize(more) + rest);
      assert b + rest == line + "\n" + (more + rest);
      FeedLine(parse, o, line, more + rest);
      FeedLine(parse, o, StripCr(line), Normalize(more) + rest);
      StripIsHarmless(parse, o, line);
      NormalizeIsHarmless(parse, OnLine(parse, o, line), more, rest);
    }
  }

  lemma FeedLine(parse: Parse, o: Outcome, line: string, more: string)
    requires '\n' !in line
    ensures Feed(parse, o, line + "\n" + more) == Feed(parse, OnLine(parse, o, line), more)
  {
    var whole := line + "\n" + more;
    assert whole[..|line|] == line && whole[|line| + 1..] == more;
    NewlineAt(whole, |line|);
    assert Lines(whole) == [line] + Lines(more);
    assert ([line] + Lines(more))[1..] == Lines(more);
  }

  lemma {:induction false} TrimLeftCr(s: string)
    ensures TrimLeft(s + "\r") == if Blank(s) then "" else TrimLeft(s) + "\r"
  {
    if s == "" {
      assert s + "\r" == "\r" && "\r"[1..] == "";
    } else {
      assert (s + "\r")[1..] == s[1..] + "\r";
      assert s == [s[0]] + s[1..];
      assert s[0] in s;
      TrimLeftCr(s[1..]);
    }
  }

  lemma TrimRightCr(s: string)
    ensures TrimRight(s + "\r") == TrimRight(s)
  {
    assert (s + "\r")[..|s|] == s;
  }

  lemma TrimCr(s: string)
    ensures Trim(s + "\r") == Trim(s)
  {
    TrimLeftCr(s);
    TrimLeftBlank(s);
    TrimRightCr(TrimLeft(s));
  }

  /** A carriage return at the end of a line is invisible. */
  lemma StripIsHarmless(parse: Parse, o: Outcome, line: string)
    ensures OnLine(parse, o, StripCr(line)) == OnLine(parse, o, line)
  {
    hide Trim, TrimLeft;
    if line != "" && line[|line| - 1] == '\r' {
      var s := line[..|line| - 1];
      assert line == s + "\r";
      TrimLeftCr(s);
      TrimLeftBlank(s);
      var t := TrimLeft(s);
      if !Blank(s) {
        PrefixCr(t);
        if |t| >= 5 {
          assert (t + "\r")[5..] == t[5..] + "\r";
          TrimCr(t[5..]);
        }
      }
      assert Data(line) == Data(s);
    }
  }

  lemma PrefixCr(t: string)
    ensures (|t + "\r"| >= 5 && (t + "\r")[..5] == "data:") <==> (|t| >= 5 && t[..5] == "data:")
  {
    if |t| >= 5 {
      assert (t + "\r")[..5] == t[..5];
    } else if |t| == 4 {
      assert (t + "\r")[..5][4] == '\r' && "data:"[4] == ':';
    }
  }

  /** White space alone is no event. */
  lemma {:induction false} BlankIsNothing(parse: Parse, o: Outcome, s: string)
    requires Trim(s) == ""
    ensures Feed(parse, o, s) == o
    decreases |s|
  {
    hide Trim, Lines, OnLines;
    TrimBlank(s);
    var i := FirstNewline(s);
    if i == |s| {
      assert s[..i] == s;
      OneLine(parse, o, s);
      BlankLine(parse, o, s);
    } else {
      var line, more := s[..i], s[i + 1..];
      assert s == line + "\n" + more;
      FeedLine(parse, o, line, more);
      BlankLine(parse, o, line);
      TrimBlank(more);
      BlankIsNothing(parse, o, more);
    }
  }

  lemma OneLine(parse: Parse, o: Outcome, s: string)
    requires '\n' !in s
    ensures Feed(parse, o, s) == OnLine(parse, o, s)
  {
    assert FirstNewline(s) == |s|;
    assert Lines(s) == [s];
    assert OnLines(parse, o, [s]) == OnLines(parse, OnLine(parse, o, s), []);
  }

  lemma BlankLine(parse: Parse, o: Outcome, line: string)
    requires Blank(line)
    ensures OnLine(parse, o, line) == o
  {
    TrimLeftBlank(line);
  }

  /** A text and its continuation: what a caller has been told is only added to. */
  lemma {:induction false} OutcomeOnlyGrows(parse: Parse, o: Outcome, lines: seq<string>)
    ensures o.deltas <= OnLines(parse, o, lines).deltas
    ensures o.end != Running ==> OnLines(parse, o, lines) == o
    decreases |lines|
  {
    if lines != [] {
      OutcomeOnlyGrows(parse, OnLine(parse, o, lines[0]), lines[1..]);
    }
  }

  /** Nothing told is retracted, whatever text arrives after a line end: the deltas so far are the first
      of all, and once the stream has ended nothing more is told. */
  lemma NothingRetracted(parse: Parse, sofar: string, more: string)
    ensures var o, all := Feed(parse, START, sofar), Consumed(parse, sofar + "\n" + more);
            o.deltas <= all.deltas && (o.end != Running ==> all == o)
  {
    hide Lines, OnLines;
    SplitAtNewline(sofar, more);
    LinesAppend(parse, START, Lines(sofar), Lines(more));
    OutcomeOnlyGrows(parse, Feed(parse, START, sofar), Lines(more));
  }
}

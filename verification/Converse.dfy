/** Translation of a unified request into a Bedrock Converse request
    (unifiedToBedrock and its helpers in server/internal/adapter/transform.go). Raw JSON fields are
    modelled by what decoding them gives; fetching and sniffing an image is a parameter. */
module Converse {
  import opened Prelude
  import opened Text

  // ------------------------------------------------------------------ the request

  datatype ImageSource = ImageSource(kind: string, mediaType: string, data: string, url: string)

  /** Materialising an image; None is a failed download or conversion. */
  type Fetch = ImageSource -> Option<string>

  datatype InnerBlock = InnerBlock(kind: string, text: string, source: Option<ImageSource>)

  /** The raw content of a tool result: only white space; a JSON string (or null, which decodes as
      an empty one); an array of content blocks; any other text that begins like an array; text
      that begins like an object; any other scalar. */
  datatype RawContent =
    | NoContent
    | StringContent(text: string)
    | BlockContent(blocks: seq<InnerBlock>)
    | ArrayContent(raw: string)
    | ObjectContent(raw: string)
    | ScalarContent(raw: string)

  datatype ToolUse = ToolUse(id: string, name: string, input: string)

  datatype ToolResult = ToolResult(toolUseId: string, content: RawContent)

  datatype Block = Block(kind: string, text: string, image: Option<ImageSource>, toolUse: Option<ToolUse>,
                         toolResult: Option<ToolResult>, cached: bool)

  datatype Message = Message(role: string, content: seq<Block>)

  datatype Tool = Tool(name: string, description: string, schema: Option<string>)

  /** The raw tools field: absent or blank, null, a decodable array, or anything else. */
  datatype RawTools = NoTools | NullTools | ToolArray(tools: seq<Tool>) | BadTools

  /** The raw tool choice: absent or undecodable, or a type and a name. */
  datatype RawChoice = NoChoice | Choice(kind: string, name: string)

  datatype Unified = Unified(system: string, systemCached: bool, messages: seq<Message>, maxTokens: Option<int>,
                             temperature: Option<real>, topP: Option<real>, stops: seq<string>,
                             tools: RawTools, choice: RawChoice)

  // ------------------------------------------------------------------ the Converse request

  datatype ResultItem = TextItem(text: string) | ImageItem(image: string) | JsonItem(raw: string)

  datatype OutBlock =
    | TextOut(text: string)
    | ImageOut(image: string)
    | ToolUseOut(id: string, name: string, input: string)
    | ToolResultOut(toolUseId: string, content: seq<ResultItem>)
    | CachePoint

  datatype OutMessage = OutMessage(role: string, content: seq<OutBlock>)

  datatype SystemBlock = SystemText(text: string) | SystemCachePoint

  datatype Inference = Inference(maxTokens: Option<int>, temperature: Option<real>, topP: Option<real>,
                                 stops: seq<string>)

  datatype ToolSpec = ToolSpec(name: string, description: string, schema: string)

  datatype ToolChoice = Auto | AnyTool | NamedTool(name: string)

  datatype ToolConfig = ToolConfig(tools: seq<ToolSpec>, choice: Option<ToolChoice>)

  datatype Request = Request(system: seq<SystemBlock>, messages: seq<OutMessage>, inference: Option<Inference>,
                             toolConfig: Option<ToolConfig>)

  datatype ImageError = ImageFailed

  const ANY_OBJECT: string := "{\"type\":\"object\"}"

  // ------------------------------------------------------------------ block by block

  predicate IsImage(c: Block) { c.kind == "image" && c.image.Some? }
  predicate IsToolUse(c: Block) { c.kind == "tool_use" && c.toolUse.Some? }
  predicate IsToolResult(c: Block) { c.kind == "tool_result" && c.toolResult.Some? }

  /** One block of a tool result's array; None when its image fails. */
  function InnerItem(fetch: Fetch, b: InnerBlock): Option<seq<ResultItem>> {
    if b.kind == "text" || b.kind == "" then Some(if b.text != "" || b.kind == "text" then [TextItem(b.text)] else [])
    else if b.kind == "image" then
      if b.source.None? then Some([])
      else match fetch(b.source.value) case None => None case Some(img) => Some([ImageItem(img)])
    else Some([TextItem(b.text)])
  }

  function InnerItems(fetch: Fetch, bs: seq<InnerBlock>): Option<seq<ResultItem>> {
    if bs == [] then Some([])
    else
      match InnerItems(fetch, bs[..|bs| - 1])
      case None => None
      case Some(before) =>
        match InnerItem(fetch, bs[|bs| - 1])
        case None => None
        case Some(items) => Some(before + items)
  }

  /** A tool result is never rendered without content. */
  function ResultContent(fetch: Fetch, raw: RawContent): (r: Option<seq<ResultItem>>)
    ensures r.Some? ==> r.value != []
  {
    match raw
    case NoContent => Some([TextItem("")])
    case StringContent(text) => Some([TextItem(text)])
    case BlockContent(blocks) =>
      (match InnerItems(fetch, blocks)
       case None => None
       case Some(items) => Some(if items == [] then [TextItem("")] else items))
    case ArrayContent(text) => Some([TextItem(text)])
    case ObjectContent(text) => Some([JsonItem(text)])
    case ScalarContent(text) => Some([TextItem(text)])
  }

  method BedrockToolResultContent(fetch: Fetch, raw: RawContent) returns (r: Option<seq<ResultItem>>)
    ensures r == ResultContent(fetch, raw)
  {
    if raw.NoContent? {
      return Some([TextItem("")]);
    }
    if raw.StringContent? {
      return Some([TextItem(raw.text)]);
    }
    if raw.BlockContent? {
      var out := [];
      for i := 0 to |raw.blocks|
        invariant InnerItems(fetch, raw.blocks[..i]) == Some(out)
      {
        assert raw.blocks[..i + 1][..i] == raw.blocks[..i] && out + [] == out;
        var b := raw.blocks[i];
        if b.kind == "text" || b.kind == "" {
          if b.text != "" || b.kind == "text" {
            out := out + [TextItem(b.text)];
          }
        } else if b.kind == "image" {
          if b.source.None? {
            continue;
          }
          var img := fetch(b.source.value);
          if img.None? {
            InnerFails(fetch, raw.blocks, i);
            return None;
          }
          out := out + [ImageItem(img.value)];
        } else {
          out := out + [TextItem(b.text)];
        }
      }
      assert raw.blocks[..|raw.blocks|] == raw.blocks;
      if |out| == 0 {
        return Some([TextItem("")]);
      }
      return Some(out);
    }
    if raw.ArrayContent? {
      return Some([TextItem(raw.raw)]);
    }
    if raw.ObjectContent? {
      return Some([JsonItem(raw.raw)]);
    }
    return Some([TextItem(raw.raw)]);
  }

  lemma {:induction false} InnerFails(fetch: Fetch, bs: seq<InnerBlock>, i: nat)
    requires i < |bs| && InnerItem(fetch, bs[i]).None?
    ensures InnerItems(fetch, bs).None?
  {
    if i < |bs| - 1 {
      InnerFails(fetch, bs[..|bs| - 1], i);
    }
  }

  /** What a source block becomes: nothing at all, one block, or a failure. */
  datatype Rendered = Failed | Nothing | One(block: OutBlock)

  function Render(fetch: Fetch, c: Block): Rendered {
    if IsImage(c) then
      match fetch(c.image.value) case None => Failed case Some(img) => One(ImageOut(img))
    else if IsToolUse(c) then
      var use := c.toolUse.value;
      One(ToolUseOut(use.id, use.name, if Blank(use.input) then "{}" else use.input))
    else if IsToolResult(c) then
      match ResultContent(fetch, c.toolResult.value.content)
      case None => Failed
      case Some(items) => One(ToolResultOut(c.toolResult.value.toolUseId, items))
    else if c.text != "" then One(TextOut(c.text))
    else Nothing
  }

  /** A message's rendered blocks, each followed by a cache point if its source block asks for one. */
  function BlocksOf(fetch: Fetch, cs: seq<Block>): Option<seq<OutBlock>> {
    if cs == [] then Some([])
    else
      match BlocksOf(fetch, cs[..|cs| - 1])
      case None => None
      case Some(before) =>
        match Render(fetch, cs[|cs| - 1])
        case Failed => None
        case Nothing => Some(before)
        case One(b) => Some(if cs[|cs| - 1].cached then before + [b] + [CachePoint] else before + [b])
  }

  function MessagesOf(fetch: Fetch, ms: seq<Message>): Option<seq<OutMessage>> {
    if ms == [] then Some([])
    else
      var last := ms[|ms| - 1];
      match MessagesOf(fetch, ms[..|ms| - 1])
      case None => None
      case Some(before) =>
        match BlocksOf(fetch, last.content)
        case None => None
        case Some(blocks) => Some(if blocks == [] then before else before + [OutMessage(last.role, blocks)])
  }

  /** The fetch of an image that is an element of a tool result fails. */
  predicate InnerImageFails(fetch: Fetch, b: InnerBlock) {
    b.kind == "image" && b.source.Some? && fetch(b.source.value).None?
  }

  /** The fetch of an image fails: the block's own, or one inside the tool result it holds. */
  predicate ImageFails(fetch: Fetch, c: Block) {
    || (IsImage(c) && fetch(c.image.value).None?)
    || (IsToolResult(c) && c.toolResult.value.content.BlockContent?
        && exists b | b in c.toolResult.value.content.blocks :: InnerImageFails(fetch, b))
  }

  lemma {:induction false} InnerFailsExactly(fetch: Fetch, bs: seq<InnerBlock>)
    ensures InnerItems(fetch, bs).None? <==> exists b | b in bs :: InnerImageFails(fetch, b)
  {
    if bs != [] {
      var init, last := bs[..|bs| - 1], bs[|bs| - 1];
      InnerFailsExactly(fetch, init);
      assert bs == init + [last];
      assert last in bs && forall b :: b in bs <==> b in init || b == last;
    }
  }

  lemma RenderFails(fetch: Fetch, c: Block)
    ensures Render(fetch, c) == Failed <==> ImageFails(fetch, c)
  {
    if IsToolResult(c) && c.toolResult.value.content.BlockContent? {
      InnerFailsExactly(fetch, c.toolResult.value.content.blocks);
    }
  }

  lemma {:induction false} BlockFails(fetch: Fetch, cs: seq<Block>)
    ensures BlocksOf(fetch, cs).None? <==> exists c | c in cs :: ImageFails(fetch, c)
  {
    if cs != [] {
      var init, last := cs[..|cs| - 1], cs[|cs| - 1];
      BlockFails(fetch, init);
      RenderFails(fetch, last);
      assert cs == init + [last];
      assert last in cs && forall c :: c in cs <==> c in init || c == last;
    }
  }

  /** The conversion is refused exactly when the fetch of some image fails, in a message or in a tool
      result. */
  lemma {:induction false} FailsExactly(fetch: Fetch, ms: seq<Message>)
    ensures MessagesOf(fetch, ms).None? <==> exists m, c | m in ms && c in m.content :: ImageFails(fetch, c)
  {
    if ms != [] {
      var init, last := ms[..|ms| - 1], ms[|ms| - 1];
      FailsExactly(fetch, init);
      BlockFails(fetch, last.content);
      assert ms == init + [last];
      assert last in ms && forall m :: m in ms <==> m in init || m == last;
    }
  }

  // ------------------------------------------------------------------ tool configuration

  predicate EffectivelyEmpty(raw: RawTools) {
    raw.NoTools? || raw.NullTools? || (raw.ToolArray? && raw.tools == [])
  }

  predicate Unusable(raw: RawTools) { EffectivelyEmpty(raw) || raw.BadTools? }

  function SpecOf(t: Tool): ToolSpec {
    ToolSpec(t.name, t.description, if t.schema.Some? then t.schema.value else ANY_OBJECT)
  }

  function SpecsOf(ts: seq<Tool>): seq<ToolSpec> { seq(|ts|, i requires 0 <= i < |ts| => SpecOf(ts[i])) }

  function ChoiceOf(raw: RawChoice): Option<ToolChoice> {
    if raw.NoChoice? then None
    else if raw.kind == "auto" then Some(Auto)
    else if raw.kind == "any" then Some(AnyTool)
    else if raw.kind == "tool" && raw.name != "" then Some(NamedTool(raw.name))
    else None
  }

  method CanonicalToolsToBedrock(tools: RawTools, choice: RawChoice) returns (cfg: Option<ToolConfig>)
    ensures cfg == if Unusable(tools) then None else Some(ToolConfig(SpecsOf(tools.tools), ChoiceOf(choice)))
  {
    if EffectivelyEmpty(tools) {
      return None;
    }
    if tools.BadTools? {
      return None;
    }
    var specs := [];
    for i := 0 to |tools.tools|
      invariant specs == SpecsOf(tools.tools[..i])
    {
      var t := tools.tools[i];
      var schema := ANY_OBJECT;
      if t.schema.Some? {
        schema := t.schema.value;
      }
      specs := specs + [ToolSpec(t.name, t.description, schema)];
    }
    assert tools.tools[..|tools.tools|] == tools.tools;
    return Some(ToolConfig(specs, ChoiceOf(choice)));
  }

  /** The names of the tool uses of a history that have one, in order, repeats included. */
  function NamesIn(cs: seq<Block>): seq<string> {
    if cs == [] then []
    else
      var last := cs[|cs| - 1];
      var before := NamesIn(cs[..|cs| - 1]);
      if IsToolUse(last) && last.toolUse.value.name != "" then before + [last.toolUse.value.name] else before
  }

  function UsedNames(ms: seq<Message>): seq<string> {
    if ms == [] then [] else UsedNames(ms[..|ms| - 1]) + NamesIn(ms[|ms| - 1].content)
  }

  /** First occurrences only. */
  function FirstOccurrences(names: seq<string>): seq<string> {
    if names == [] then []
    else
      var before, last := FirstOccurrences(names[..|names| - 1]), names[|names| - 1];
      if last in before then before else before + [last]
  }

  function FirstIndex(names: seq<string>, n: string): nat {
    if names == [] then 0 else if names[0] == n then 0 else 1 + FirstIndex(names[1..], n)
  }

  lemma {:induction false} FirstIndexMeaning(names: seq<string>, n: string)
    ensures FirstIndex(names, n) <= |names|
    ensures forall k | 0 <= k < FirstIndex(names, n) :: names[k] != n
    ensures n in names ==> FirstIndex(names, n) < |names| && names[FirstIndex(names, n)] == n
    ensures n !in names ==> FirstIndex(names, n) == |names|
  {
    if names != [] && names[0] != n {
      FirstIndexMeaning(names[1..], n);
      assert forall k | 0 < k < |names| :: names[k] == names[1..][k - 1];
    }
  }

  lemma FirstIndexExtends(names: seq<string>, x: string, n: string)
    ensures FirstIndex(names + [x], n)
            == if n in names then FirstIndex(names, n) else if n == x then |names| else |names| + 1
  {
    FirstIndexMeaning(names, n);
    FirstIndexMeaning(names + [x], n);
    var whole := names + [x];
    assert forall k | 0 <= k < |names| :: whole[k] == names[k];
    if n in names {
      assert whole[FirstIndex(names, n)] == n;
    } else if n == x {
      assert whole[|names|] == n;
    } else {
      assert n !in whole;
    }
  }

  /** The same names, each once, ordered by first appearance. */
  lemma {:induction false} FirstOccurrencesMeaning(names: seq<string>)
    ensures forall n :: n in FirstOccurrences(names) <==> n in names
    ensures forall i, j | 0 <= i < j < |FirstOccurrences(names)| ::
              FirstIndex(names, FirstOccurrences(names)[i]) < FirstIndex(names, FirstOccurrences(names)[j])
  {
    if names != [] {
      var init, last := names[..|names| - 1], names[|names| - 1];
      FirstOccurrencesMeaning(init);
      assert names == init + [last];
      forall n
        ensures FirstIndex(names, n) == if n in init then FirstIndex(init, n) else if n == last then |init| else |names|
      {
        FirstIndexExtends(init, last, n);
      }
      forall n | n in init ensures FirstIndex(init, n) < |init| {
        FirstIndexMeaning(init, n);
      }
    }
  }

  function SpecsFor(names: seq<string>): seq<ToolSpec> {
    seq(|names|, i requires 0 <= i < |names| => ToolSpec(names[i], "", ANY_OBJECT))
  }

  function Reconstructed(ms: seq<Message>): Option<ToolConfig> {
    var names := FirstOccurrences(UsedNames(ms));
    if names == [] then None else Some(ToolConfig(SpecsFor(names), None))
  }

  /** The fallback of the source, with its set of names already seen. */
  method ReconstructToolConfigFromHistory(ms: seq<Message>) returns (cfg: Option<ToolConfig>)
    ensures cfg == Reconstructed(ms)
  {
    hide Tracks, NamesIn;
    var seen: set<string> := {};
    cfg := None;
    TracksNothing();
    for i := 0 to |ms|
      invariant Tracks(seen, cfg, UsedNames(ms[..i]))
    {
      assert ms[..i + 1][..i] == ms[..i];
      seen, cfg := ReconstructFrom(ms[i].content, seen, cfg, UsedNames(ms[..i]));
    }
    assert ms[..|ms|] == ms;
    TracksMeaning(seen, cfg, UsedNames(ms));
  }

  /** The inner loop over one message's blocks. */
  method ReconstructFrom(content: seq<Block>, seen0: set<string>, cfg0: Option<ToolConfig>, ghost before: seq<string>)
    returns (seen: set<string>, cfg: Option<ToolConfig>)
    requires Tracks(seen0, cfg0, before)
    ensures Tracks(seen, cfg, before + NamesIn(content))
  {
    hide Tracks;
    seen, cfg := seen0, cfg0;
    assert before + [] == before;
    for j := 0 to |content|
      invariant Tracks(seen, cfg, before + NamesIn(content[..j]))
    {
      assert content[..j + 1][..j] == content[..j];
      var c := content[j];
      if !IsToolUse(c) || c.toolUse.value.name == "" {
        continue;
      }
      var name := c.toolUse.value.name;
      assert before + NamesIn(content[..j + 1]) == before + NamesIn(content[..j]) + [name];
      TracksNext(seen, cfg, before + NamesIn(content[..j]), name);
      if name in seen {
        continue;
      }
      seen := seen + {name};
      if cfg.None? {
        cfg := Some(ToolConfig([], None));
      }
      cfg := Some(cfg.value.(tools := cfg.value.tools + [ToolSpec(name, "", ANY_OBJECT)]));
    }
    assert content[..|content|] == content;
  }

  /** The loop's variables after these used names. */
  ghost predicate Tracks(seen: set<string>, cfg: Option<ToolConfig>, used: seq<string>) {
    var names := FirstOccurrences(used);
    && (forall n :: n in seen <==> n in names)
    && cfg == if names == [] then None else Some(ToolConfig(SpecsFor(names), None))
  }

  lemma TracksNothing()
    ensures Tracks({}, None, UsedNames([]))
  {
  }

  lemma TracksMeaning(seen: set<string>, cfg: Option<ToolConfig>, used: seq<string>)
    requires Tracks(seen, cfg, used)
    ensures var names := FirstOccurrences(used);
            cfg == if names == [] then None else Some(ToolConfig(SpecsFor(names), None))
  {
  }

  lemma TracksNext(seen: set<string>, cfg: Option<ToolConfig>, used: seq<string>, name: string)
    requires Tracks(seen, cfg, used)
    ensures name in seen ==> Tracks(seen, cfg, used + [name])
    ensures name !in seen ==>
              var tools := if cfg.None? then [] else cfg.value.tools;
              Tracks(seen + {name}, Some(ToolConfig(tools + [ToolSpec(name, "", ANY_OBJECT)], None)), used + [name])
    ensures cfg.Some? ==> cfg.value.choice == None
  {
    var names := FirstOccurrences(used);
    assert (used + [name])[..|used|] == used;
    assert SpecsFor(names + [name]) == SpecsFor(names) + [ToolSpec(name, "", ANY_OBJECT)];
    assert SpecsFor([]) == [];
  }

  // ------------------------------------------------------------------ the whole translation

  function SystemOf(uni: Unified): seq<SystemBlock> {
    if Trim(uni.system) == "" then []
    else if uni.systemCached then [SystemText(uni.system), SystemCachePoint]
    else [SystemText(uni.system)]
  }

  function InferenceOf(uni: Unified): Option<Inference> {
    if uni.maxTokens.Some? || uni.temperature.Some? || uni.topP.Some? || uni.stops != []
    then Some(Inference(uni.maxTokens, uni.temperature, uni.topP, uni.stops)) else None
  }

  function ToolConfigOf(uni: Unified): Option<ToolConfig> {
    if Unusable(uni.tools) then Reconstructed(uni.messages)
    else Some(ToolConfig(SpecsOf(uni.tools.tools), ChoiceOf(uni.choice)))
  }

  function Translated(fetch: Fetch, uni: Unified): Result<Request, ImageError> {
    match MessagesOf(fetch, uni.messages)
    case None => Err(ImageFailed)
    case Some(messages) => Ok(Request(SystemOf(uni), messages, InferenceOf(uni), ToolConfigOf(uni)))
  }

  /** The translation of the source, with its nested loops. */
  method UnifiedToBedrock(fetch: Fetch, uni: Unified) returns (r: Result<Request, ImageError>)
    ensures r == Translated(fetch, uni)
  {
    hide Render, ResultContent, Reconstructed, Unusable, SpecsOf;
    var system: seq<SystemBlock> := [];
    if Trim(uni.system) != "" {
      system := [SystemText(uni.system)];
      if uni.systemCached {
        system := system + [SystemCachePoint];
        assert system == [SystemText(uni.system), SystemCachePoint];
      }
    }
    var messages: seq<OutMessage> := [];
    for i := 0 to |uni.messages|
      invariant MessagesOf(fetch, uni.messages[..i]) == Some(messages)
    {
      assert uni.messages[..i + 1][..i] == uni.messages[..i];
      var m := uni.messages[i];
      var blocks := RenderMessage(fetch, m.content);
      if blocks.None? {
        BlockFails(fetch, m.content);
        FailsExactly(fetch, uni.messages);
        return Err(ImageFailed);
      }
      if |blocks.value| == 0 {
        continue;
      }
      messages := messages + [OutMessage(m.role, blocks.value)];
    }
    assert uni.messages[..|uni.messages|] == uni.messages;
    var inference: Option<Inference> := None;
    if uni.maxTokens.Some? || uni.temperature.Some? || uni.topP.Some? || |uni.stops| > 0 {
      inference := Some(Inference(uni.maxTokens, uni.temperature, uni.topP, uni.stops));
    }
    var toolConfig := CanonicalToolsToBedrock(uni.tools, uni.choice);
    if toolConfig.None? {
      toolConfig := ReconstructToolConfigFromHistory(uni.messages);
    }
    return Ok(Request(system, messages, inference, toolConfig));
  }

  /** The inner loop over one message's blocks. */
  method RenderMessage(fetch: Fetch, content: seq<Block>) returns (r: Option<seq<OutBlock>>)
    ensures r == BlocksOf(fetch, content)
  {
    hide ResultContent;
    var blocks: seq<OutBlock> := [];
    for i := 0 to |content|
      invariant BlocksOf(fetch, content[..i]) == Some(blocks)
    {
      assert content[..i + 1][..i] == content[..i];
      var c := content[i];
      var before := |blocks|;
      if IsImage(c) {
        var img := fetch(c.image.value);
        if img.None? {
          FailsAt(fetch, content, i);
          return None;
        }
        blocks := blocks + [ImageOut(img.value)];
      } else if IsToolUse(c) {
        var input := c.toolUse.value.input;
        if Blank(input) {
          input := "{}";
        }
        blocks := blocks + [ToolUseOut(c.toolUse.value.id, c.toolUse.value.name, input)];
      } else if IsToolResult(c) {
        var items := BedrockToolResultContent(fetch, c.toolResult.value.content);
        if items.None? {
          FailsAt(fetch, content, i);
          return None;
        }
        blocks := blocks + [ToolResultOut(c.toolResult.value.toolUseId, items.value)];
      } else if c.text != "" {
        blocks := blocks + [TextOut(c.text)];
      }
      if c.cached && |blocks| > before {
        blocks := blocks + [CachePoint];
      }
    }
    assert content[..|content|] == content;
    return Some(blocks);
  }

  lemma FailsAt(fetch: Fetch, content: seq<Block>, i: nat)
    requires i < |content| && Render(fetch, content[i]) == Failed
    ensures BlocksOf(fetch, content).None?
  {
    BlockFails(fetch, content);
    RenderFails(fetch, content[i]);
    assert content[i] in content;
  }

  // ------------------------------------------------------------------ what the upstream insists on

  /** Every block says something: no empty text, no tool result without content, no blank input. */
  predicate Substantial(b: OutBlock) {
    match b
    case TextOut(text) => text != ""
    case ImageOut(_) => true
    case ToolUseOut(_, _, input) => !Blank(input)
    case ToolResultOut(_, content) => content != []
    case CachePoint => true
  }

  /** A cache point follows a block it caches: it is never first and never follows another. */
  predicate WellPlaced(bs: seq<OutBlock>) {
    forall k | 0 <= k < |bs| :: bs[k].CachePoint? ==> k > 0 && !bs[k - 1].CachePoint?
  }

  /** The blocks with a mark on each that a cache point follows. */
  function Marked(bs: seq<OutBlock>): seq<(OutBlock, bool)> {
    if bs == [] then []
    else
      var before, last := Marked(bs[..|bs| - 1]), bs[|bs| - 1];
      if !last.CachePoint? then before + [(last, false)]
      else if before == [] then []
      else before[..|before| - 1] + [(before[|before| - 1].0, true)]
  }

  /** An element of a tool result's array that becomes an item: an image with a source, anything else
      unless it is an empty text without a type. */
  predicate Telling(b: InnerBlock) {
    if b.kind == "image" then b.source.Some? else b.kind != "" || b.text != ""
  }

  function TellingIn(bs: seq<InnerBlock>): seq<InnerBlock> {
    if bs == [] then []
    else TellingIn(bs[..|bs| - 1]) + if Telling(bs[|bs| - 1]) then [bs[|bs| - 1]] else []
  }

  /** The item of such an element: the image that was fetched, or its text. */
  predicate Tells(fetch: Fetch, b: InnerBlock, item: ResultItem) {
    if b.kind == "image" then b.source.Some? && item.ImageItem? && fetch(b.source.value) == Some(item.image)
    else item.TextItem? && item.text == b.text
  }

  /** The items a tool result's content is to decode to. */
  ghost predicate Decodes(fetch: Fetch, raw: RawContent, items: seq<ResultItem>) {
    match raw
    case NoContent => items == [TextItem("")]
    case StringContent(text) => items == [TextItem(text)]
    case BlockContent(blocks) =>
      var telling := TellingIn(blocks);
      if telling == [] then items == [TextItem("")]
      else |items| == |telling| && forall k | 0 <= k < |items| :: Tells(fetch, telling[k], items[k])
    case ArrayContent(text) => items == [TextItem(text)]
    case ObjectContent(text) => items == [JsonItem(text)]
    case ScalarContent(text) => items == [TextItem(text)]
  }

  lemma {:induction false} InnerItemsTell(fetch: Fetch, bs: seq<InnerBlock>)
    requires InnerItems(fetch, bs).Some?
    ensures var items, telling := InnerItems(fetch, bs).value, TellingIn(bs);
            |items| == |telling| && forall k | 0 <= k < |items| :: Tells(fetch, telling[k], items[k])
  {
    if bs != [] {
      InnerItemsTell(fetch, bs[..|bs| - 1]);
    }
  }

  lemma ContentDecodes(fetch: Fetch, raw: RawContent)
    requires ResultContent(fetch, raw).Some?
    ensures Decodes(fetch, raw, ResultContent(fetch, raw).value)
  {
    if raw.BlockContent? {
      InnerItemsTell(fetch, raw.blocks);
    }
  }

  /** A source block that has something to send: an image, a tool use, a tool result or some text. */
  predicate Speaking(c: Block) {
    || (c.kind == "image" && c.image.Some?) || (c.kind == "tool_use" && c.toolUse.Some?)
    || (c.kind == "tool_result" && c.toolResult.Some?) || c.text != ""
  }

  function SpeakingIn(cs: seq<Block>): seq<Block> {
    if cs == [] then []
    else SpeakingIn(cs[..|cs| - 1]) + if Speaking(cs[|cs| - 1]) then [cs[|cs| - 1]] else []
  }

  /** What is sent says what the source block says: the image that was fetched; the tool use's own id,
      name and input, {} for a blank one; the tool result's id and decoded content; the text verbatim. */
  ghost predicate Says(fetch: Fetch, c: Block, b: OutBlock) {
    if c.kind == "image" && c.image.Some? then b.ImageOut? && fetch(c.image.value) == Some(b.image)
    else if c.kind == "tool_use" && c.toolUse.Some? then
      var use := c.toolUse.value;
      b.ToolUseOut? && b.id == use.id && b.name == use.name && b.input == if Blank(use.input) then "{}" else use.input
    else if c.kind == "tool_result" && c.toolResult.Some? then
      b.ToolResultOut? && b.toolUseId == c.toolResult.value.toolUseId
      && Decodes(fetch, c.toolResult.value.content, b.content)
    else b.TextOut? && b.text == c.text
  }

  /** The blocks sent, cache points aside, say what the source's speaking blocks say, one by one and in
      order, and each is marked for the cache exactly if its source block is. */
  ghost predicate Carries(fetch: Fetch, cs: seq<Block>, bs: seq<OutBlock>) {
    var spoken, marks := SpeakingIn(cs), Marked(bs);
    && |marks| == |spoken|
    && forall k | 0 <= k < |marks| :: Says(fetch, spoken[k], marks[k].0) && marks[k].1 == spoken[k].cached
  }

  lemma RenderedSays(fetch: Fetch, c: Block)
    ensures Render(fetch, c).One? ==> Speaking(c) && Says(fetch, c, Render(fetch, c).block)
    ensures Render(fetch, c).Nothing? ==> !Speaking(c)
  {
    hide ResultContent, Blank, Decodes;
    if IsToolResult(c) && ResultContent(fetch, c.toolResult.value.content).Some? {
      ContentDecodes(fetch, c.toolResult.value.content);
    }
  }

  lemma RenderedIsSubstantial(fetch: Fetch, c: Block)
    requires Render(fetch, c).One?
    ensures Substantial(Render(fetch, c).block) && !Render(fetch, c).block.CachePoint?
  {
    assert '{' in "{}";
  }

  lemma PutReal(bs: seq<OutBlock>, b: OutBlock)
    requires !b.CachePoint?
    ensures Marked(bs + [b]) == Marked(bs) + [(b, false)]
  {
    assert (bs + [b])[..|bs|] == bs;
  }

  lemma PutPoint(bs: seq<OutBlock>, marks: seq<(OutBlock, bool)>, b: OutBlock)
    requires Marked(bs) == marks + [(b, false)]
    ensures Marked(bs + [CachePoint]) == marks + [(b, true)]
  {
    assert (bs + [CachePoint])[..|bs|] == bs;
    assert Marked(bs)[..|Marked(bs)| - 1] == marks;
  }

  lemma PutWellPlaced(bs: seq<OutBlock>, b: OutBlock)
    requires !b.CachePoint? && WellPlaced(bs)
    ensures WellPlaced(bs + [b]) && WellPlaced(bs + [b] + [CachePoint])
  {
  }

  lemma PutBlock(bs: seq<OutBlock>, b: OutBlock, cached: bool)
    requires !b.CachePoint?
    ensures var all := if cached then bs + [b] + [CachePoint] else bs + [b];
            && (WellPlaced(bs) ==> WellPlaced(all))
            && Marked(all) == Marked(bs) + [(b, cached)]
  {
    hide WellPlaced, Marked;
    PutReal(bs, b);
    PutPoint(bs + [b], Marked(bs), b);
    if WellPlaced(bs) {
      PutWellPlaced(bs, b);
    }
  }

  /** One message: every block substantial, cache points well placed, and what is sent carries exactly
      what the source says. */
  lemma {:induction false} MessageIsFaithful(fetch: Fetch, cs: seq<Block>)
    requires BlocksOf(fetch, cs).Some?
    ensures var bs := BlocksOf(fetch, cs).value;
            && (forall b | b in bs :: Substantial(b)) && WellPlaced(bs) && Carries(fetch, cs, bs)
            && (bs == [] <==> SpeakingIn(cs) == [])
  {
    hide Render, Substantial, WellPlaced, Marked, Speaking, Says;
    if cs == [] {
      NothingPlaced();
    } else {
      var init, last := cs[..|cs| - 1], cs[|cs| - 1];
      MessageIsFaithful(fetch, init);
      RenderedSays(fetch, last);
      if Render(fetch, last).One? {
        RenderedIsSubstantial(fetch, last);
        PutBlock(BlocksOf(fetch, init).value, Render(fetch, last).block, last.cached);
        assert Substantial(CachePoint) by { PointIsSubstantial(); }
      }
    }
  }

  lemma NothingPlaced()
    ensures WellPlaced([]) && Marked([]) == []
  {
  }

  lemma PointIsSubstantial()
    ensures Substantial(CachePoint)
  {
  }

  /** The messages with a speaking block. */
  function SpeakingMessages(ms: seq<Message>): seq<Message> {
    if ms == [] then []
    else SpeakingMessages(ms[..|ms| - 1]) + if SpeakingIn(ms[|ms| - 1].content) != [] then [ms[|ms| - 1]] else []
  }

  ghost predicate Acceptable(m: OutMessage) {
    m.content != [] && WellPlaced(m.content) && forall b | b in m.content :: Substantial(b)
  }

  /** The whole conversation: no empty message or block, cache points well placed, and exactly the
      source's messages that have something to send, with their roles and what they say, in order. */
  lemma {:induction false} TranslationIsFaithful(fetch: Fetch, ms: seq<Message>)
    requires MessagesOf(fetch, ms).Some?
    ensures var out, spoken := MessagesOf(fetch, ms).value, SpeakingMessages(ms);
            && |out| == |spoken|
            && forall k | 0 <= k < |out| ::
                 Acceptable(out[k]) && out[k].role == spoken[k].role
                 && Carries(fetch, spoken[k].content, out[k].content)
  {
    hide BlocksOf, SpeakingIn, Carries, WellPlaced, Substantial;
    if ms != [] {
      var init, last := ms[..|ms| - 1], ms[|ms| - 1];
      TranslationIsFaithful(fetch, init);
      MessageIsFaithful(fetch, last.content);
    }
  }

  /** The sampling parameters go out as given, unless none is. */
  lemma InferenceIsFaithful(uni: Unified)
    ensures InferenceOf(uni).None? <==>
            uni.maxTokens.None? && uni.temperature.None? && uni.topP.None? && uni.stops == []
    ensures InferenceOf(uni).Some? ==>
              var i := InferenceOf(uni).value;
              && i.maxTokens == uni.maxTokens && i.temperature == uni.temperature && i.topP == uni.topP
              && i.stops == uni.stops
  {
  }

  /** System text goes out verbatim unless it is blank, and only text is ever given a cache point. */
  lemma SystemIsFaithful(uni: Unified)
    ensures SystemOf(uni) == [] <==> Blank(uni.system)
    ensures SystemOf(uni) != [] ==> SystemOf(uni)[0] == SystemText(uni.system)
    ensures SystemCachePoint in SystemOf(uni) <==> uni.systemCached && !Blank(uni.system)
    ensures forall k | 0 <= k < |SystemOf(uni)| :: SystemOf(uni)[k].SystemCachePoint? ==> k == |SystemOf(uni)| - 1 > 0
  {
    hide Trim, Blank;
    TrimBlank(uni.system);
  }

  // ------------------------------------------------------------------ tools

  /** No tool configuration exactly when the tools are unusable and the history has no named tool
      use; a reconstructed one lists the distinct names in order of first appearance. */
  lemma ToolConfigExactly(uni: Unified)
    ensures ToolConfigOf(uni).None? <==> Unusable(uni.tools) && UsedNames(uni.messages) == []
    ensures Unusable(uni.tools) && ToolConfigOf(uni).Some? ==>
              var specs, used := ToolConfigOf(uni).value.tools, UsedNames(uni.messages);
              && specs != []
              && (forall n :: (exists t | t in specs :: t.name == n) <==> n in used)
              && (forall i, j | 0 <= i < j < |specs| ::
                    FirstIndex(used, specs[i].name) < FirstIndex(used, specs[j].name))
    ensures !Unusable(uni.tools) ==> |ToolConfigOf(uni).value.tools| == |uni.tools.tools| > 0
  {
    var used := UsedNames(uni.messages);
    FirstOccurrencesMeaning(used);
    if used != [] {
      assert used[0] in used;
    }
    var names := FirstOccurrences(used);
    if names != [] {
      assert names[0] in names;
    }
    forall n ensures (exists t | t in SpecsFor(names) :: t.name == n) <==> n in names {
      if n in names {
        var i :| 0 <= i < |names| && names[i] == n;
        assert SpecsFor(names)[i] in SpecsFor(names);
      }
    }
  }

  /** Declared tools go out one by one with their names, descriptions and schemas, {"type":"object"} for
      want of one, and the choice as Bedrock knows it; reconstructed ones have nothing but a name. */
  lemma ToolsAreFaithful(uni: Unified)
    ensures uni.tools.ToolArray? && uni.tools.tools != [] ==>
              var cfg, tools := ToolConfigOf(uni), uni.tools.tools;
              && cfg.Some? && |cfg.value.tools| == |tools|
              && (forall k | 0 <= k < |tools| ::
                    var spec := cfg.value.tools[k];
                    && spec.name == tools[k].name && spec.description == tools[k].description
                    && (tools[k].schema.Some? ==> spec.schema == tools[k].schema.value)
                    && (tools[k].schema.None? ==> spec.schema == "{\"type\":\"object\"}"))
              && (cfg.value.choice == Some(Auto) <==> uni.choice.Choice? && uni.choice.kind == "auto")
              && (cfg.value.choice == Some(AnyTool) <==> uni.choice.Choice? && uni.choice.kind == "any")
              && (forall n :: cfg.value.choice == Some(NamedTool(n)) <==>
                    uni.choice.Choice? && uni.choice.kind == "tool" && n == uni.choice.name != "")
    ensures !(uni.tools.ToolArray? && uni.tools.tools != []) && ToolConfigOf(uni).Some? ==>
              var cfg := ToolConfigOf(uni).value;
              cfg.choice.None?
              && forall t | t in cfg.tools :: t.description == "" && t.schema == "{\"type\":\"object\"}"
  {
  }

  /** The request as a whole: its parts are those of the source, each as said above. */
  lemma RequestIsFaithful(fetch: Fetch, uni: Unified)
    requires Translated(fetch, uni).Ok?
    ensures var r, spoken := Translated(fetch, uni).value, SpeakingMessages(uni.messages);
            && (r.system != [] <==> !Blank(uni.system)) && (r.system != [] ==> r.system[0] == SystemText(uni.system))
            && |r.messages| == |spoken|
            && (forall k | 0 <= k < |spoken| ::
                  r.messages[k].role == spoken[k].role && Carries(fetch, spoken[k].content, r.messages[k].content))
            && (r.inference.Some? ==>
                  r.inference.value == Inference(uni.maxTokens, uni.temperature, uni.topP, uni.stops))
            && (r.toolConfig.Some? <==>
                UsedNames(uni.messages) != [] || (uni.tools.ToolArray? && uni.tools.tools != []))
  {
    hide Translated, Carries, SpeakingMessages, SystemOf, InferenceOf, UsedNames, MessagesOf, Trim, Blank;
    TranslatedParts(fetch, uni);
    TranslationIsFaithful(fetch, uni.messages);
    SystemIsFaithful(uni);
    InferenceIsFaithful(uni);
    ToolConfigExactly(uni);
  }

  lemma TranslatedParts(fetch: Fetch, uni: Unified)
    requires Translated(fetch, uni).Ok?
    ensures MessagesOf(fetch, uni.messages).Some?
    ensures Translated(fetch, uni).value
            == Request(SystemOf(uni), MessagesOf(fetch, uni.messages).value, InferenceOf(uni), ToolConfigOf(uni))
  {
  }

  predicate IsToolOut(b: OutBlock) { b.ToolUseOut? || b.ToolResultOut? }

  /** A message the upstream will not take without a tool configuration. */
  predicate HasToolContent(m: OutMessage) {
    exists b | b in m.content :: IsToolOut(b)
  }

  predicate IsTool(c: Block) { IsToolUse(c) || IsToolResult(c) }

  predicate IsNamedUse(c: Block) { IsToolUse(c) && c.toolUse.value.name != "" }

  lemma {:induction false} ToolBlocksRender(fetch: Fetch, cs: seq<Block>)
    requires BlocksOf(fetch, cs).Some?
    ensures (exists b | b in BlocksOf(fetch, cs).value :: IsToolOut(b)) <==> exists c | c in cs :: IsTool(c)
  {
    hide ResultContent, Blank;
    if cs != [] {
      var init, last := cs[..|cs| - 1], cs[|cs| - 1];
      ToolBlocksRender(fetch, init);
      assert cs == init + [last];
      assert last in cs && forall c :: c in cs <==> c in init || c == last;
      var before, r := BlocksOf(fetch, init).value, Render(fetch, last);
      assert r.One? ==> IsToolOut(r.block) == IsTool(last);
      forall b ensures b in BlocksOf(fetch, cs).value <==>
                       b in before || (r.One? && b == r.block) || (r.One? && last.cached && b == CachePoint) {
      }
      if r.One? {
        assert r.block in BlocksOf(fetch, cs).value;
      }
    }
  }

  lemma {:induction false} ToolMessagesRender(fetch: Fetch, ms: seq<Message>)
    requires MessagesOf(fetch, ms).Some?
    ensures (exists m | m in MessagesOf(fetch, ms).value :: HasToolContent(m))
            <==> exists m, c | m in ms && c in m.content :: IsTool(c)
  {
    hide BlocksOf;
    if ms != [] {
      var init, last := ms[..|ms| - 1], ms[|ms| - 1];
      ToolMessagesRender(fetch, init);
      ToolBlocksRender(fetch, last.content);
      assert ms == init + [last];
      assert last in ms && forall m :: m in ms <==> m in init || m == last;
      var all, before := MessagesOf(fetch, ms).value, MessagesOf(fetch, init).value;
      var blocks := BlocksOf(fetch, last.content).value;
      var out := OutMessage(last.role, blocks);
      assert forall m :: m in all <==> m in before || (blocks != [] && m == out);
      assert HasToolContent(out) <==> exists c | c in last.content :: IsTool(c);
    }
  }

  lemma {:induction false} NamesAreUsed(cs: seq<Block>)
    ensures NamesIn(cs) == [] <==> forall c | c in cs :: !IsNamedUse(c)
  {
    if cs != [] {
      var init, last := cs[..|cs| - 1], cs[|cs| - 1];
      NamesAreUsed(init);
      assert cs == init + [last];
      assert last in cs && forall c :: c in cs <==> c in init || c == last;
    }
  }

  lemma {:induction false} UsedNamesAreUsed(ms: seq<Message>)
    ensures UsedNames(ms) == [] <==> forall m, c | m in ms && c in m.content :: !IsNamedUse(c)
  {
    if ms != [] {
      var init, last := ms[..|ms| - 1], ms[|ms| - 1];
      UsedNamesAreUsed(init);
      NamesAreUsed(last.content);
      assert ms == init + [last];
      assert last in ms && forall m :: m in ms <==> m in init || m == last;
    }
  }

  /** The upstream's rule that tool content comes with a tool configuration is broken exactly when
      the tools are unusable and the history has tool blocks but no tool use with a name. */
  lemma ConfigMissingExactly(fetch: Fetch, uni: Unified)
    requires Translated(fetch, uni).Ok?
    ensures var r := Translated(fetch, uni).value;
            (exists m | m in r.messages :: HasToolContent(m)) && r.toolConfig.None?
            <==> && Unusable(uni.tools)
                 && (exists m, c | m in uni.messages && c in m.content :: IsTool(c))
                 && (forall m, c | m in uni.messages && c in m.content :: !IsNamedUse(c))
  {
    hide MessagesOf, ToolConfigOf, Unusable, UsedNames;
    ToolConfigExactly(uni);
    ToolMessagesRender(fetch, uni.messages);
    UsedNamesAreUsed(uni.messages);
  }

  /** It can fail: a history that keeps a tool result but not the tool use it answers. */
  lemma ToolContentWithoutConfig(fetch: Fetch)
    ensures var answer := Block("tool_result", "", None, None, Some(ToolResult("call_1", StringContent("42"))), false);
            var uni := Unified("", false, [Message("user", [answer])], None, None, None, [], NoTools, NoChoice);
            var r := Translated(fetch, uni);
            r.Ok? && r.value.toolConfig.None? && |r.value.messages| == 1 && HasToolContent(r.value.messages[0])
  {
    var answer := Block("tool_result", "", None, None, Some(ToolResult("call_1", StringContent("42"))), false);
    var m := Message("user", [answer]);
    var item := ToolResultOut("call_1", [TextItem("42")]);
    assert [answer][..0] == [] && [m][..0] == [] && [] + [item] == [item];
    assert Render(fetch, answer) == One(ToolResultOut("call_1", [TextItem("42")]));
    assert BlocksOf(fetch, []) == Some([]);
    assert BlocksOf(fetch, [answer]) == Some([ToolResultOut("call_1", [TextItem("42")])]);
    assert MessagesOf(fetch, []) == Some([]);
    assert NamesIn([]) == [] && NamesIn([answer]) == [];
    assert UsedNames([]) == [] && UsedNames([m]) == [];
    var out := OutMessage("user", [ToolResultOut("call_1", [TextItem("42")])]);
    assert [] + [out] == [out];
    assert MessagesOf(fetch, [m]) == Some([out]);
    assert out.content[0] in out.content;
  }
}

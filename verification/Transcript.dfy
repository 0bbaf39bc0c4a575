/**
  The shape of a tool-calling transcript, the Anthropic form of it, the decoding of Anthropic
  responses, and the replay of persisted conversations.
 */
module Transcript {
  import opened Messages
  import opened Options

  // ---- well-formed transcripts ----

  function UseIds(blocks: seq<ContentBlock>): seq<string> {
    if blocks == [] then []
    else UseIds(blocks[..|blocks| - 1]) + if blocks[|blocks| - 1].kind == "tool_use" then [blocks[|blocks| - 1].id] else []
  }

  /** The preserved blocks of a message, when there are any, name the same calls as its call list. */
  predicate CallsAgree(m: Message) { m.blocks == [] || UseIds(m.blocks) == CallIds(m.toolCalls) }

  /** Ids still to be answered, oldest first; None once the shape is broken. */
  type Pending = Option<seq<string>>

  function Next(p: Pending, m: Message): Pending {
    if p.None? then None
    else if p.value != [] then
      if m.role == Tool && m.toolCallId == p.value[0] then Some(p.value[1..]) else None
    else if m.role == Tool then None
    else if m.role == Assistant then if CallsAgree(m) then Some(CallIds(m.toolCalls)) else None
    else Some([])
  }

  function Scan(p: Pending, msgs: seq<Message>): Pending {
    if msgs == [] then p else Next(Scan(p, msgs[..|msgs| - 1]), msgs[|msgs| - 1])
  }

  /**
    Each assistant turn's calls are answered at once, one result each, in the order of the calls, and
    results stand nowhere else.
   */
  predicate Shaped(msgs: seq<Message>) { Scan(Some([]), msgs) == Some([]) }

  lemma ScanOne(p: Pending, msgs: seq<Message>, m: Message)
    ensures Scan(p, msgs + [m]) == Next(Scan(p, msgs), m)
  {
    assert (msgs + [m])[..|msgs|] == msgs;
  }

  lemma {:induction false} ScanConcat(p: Pending, a: seq<Message>, b: seq<Message>)
    ensures Scan(p, a + b) == Scan(Scan(p, a), b)
  {
    if b == [] {
      assert a + b == a;
    } else {
      ScanConcat(p, a, b[..|b| - 1]);
      assert (a + b)[..|a + b| - 1] == a + b[..|b| - 1];
    }
  }

  lemma {:induction false} BrokenStaysBroken(msgs: seq<Message>)
    ensures Scan(None, msgs) == None
  {
    if msgs == [] {
    } else {
      BrokenStaysBroken(msgs[..|msgs| - 1]);
    }
  }

  // ---- the Anthropic form ----

  /** An input object as it was received, or the one that an argument text decodes to: null when it decodes to none. */
  datatype WireInput = Received(json: string) | DecodedFrom(arguments: string)

  datatype WireBlock =
    | TextBlock(text: string)
    | ThinkingBlock(thinking: string, signature: Option<string>)
    | UseBlock(id: string, name: string, input: WireInput)
    | ResultBlock(content: string, useId: Option<string>)
    | BareBlock(kind: string)

  datatype Content = Plain(text: string) | Blocks(blocks: seq<WireBlock>)

  datatype Wire = Wire(role: Role, content: Content)

  function EncodeBlock(b: ContentBlock): WireBlock {
    if b.kind == "text" then TextBlock(b.text)
    else if b.kind == "thinking" then ThinkingBlock(b.thinking, if b.signature == "" then None else Some(b.signature))
    else if b.kind == "tool_use" then UseBlock(b.id, b.name, Received(b.input))
    else BareBlock(b.kind)
  }

  function EncodeBlocks(blocks: seq<ContentBlock>): seq<WireBlock> {
    if blocks == [] then [] else EncodeBlocks(blocks[..|blocks| - 1]) + [EncodeBlock(blocks[|blocks| - 1])]
  }

  function EncodeCalls(calls: seq<ToolCall>): seq<WireBlock> {
    if calls == [] then []
    else
      var c := calls[|calls| - 1];
      EncodeCalls(calls[..|calls| - 1]) + [UseBlock(c.id, c.name, DecodedFrom(c.arguments))]
  }

  function Key(id: string): Option<string> { if id == "" then None else Some(id) }

  function EncodeResult(m: Message): WireBlock { ResultBlock(m.content, Key(m.toolCallId)) }

  /** Content of a message that is neither a system message nor a tool result. */
  function View(m: Message): Content {
    if m.role == Assistant && m.blocks != [] then Blocks(EncodeBlocks(m.blocks))
    else if m.role == Assistant && m.toolCalls != [] then
      Blocks((if m.content != "" then [TextBlock(m.content)] else []) + EncodeCalls(m.toolCalls))
    else Plain(m.content)
  }

  /** A user message of blocks: only tool results produce one. */
  predicate IsResults(w: Wire) { w.role == User && w.content.Blocks? }

  function Add(wires: seq<Wire>, m: Message): seq<Wire> {
    if m.role == System then wires
    else if m.role != Tool then wires + [Wire(m.role, View(m))]
    else if wires != [] && IsResults(wires[|wires| - 1]) then
      var last := wires[|wires| - 1];
      wires[..|wires| - 1] + [Wire(User, Blocks(last.content.blocks + [EncodeResult(m)]))]
    else wires + [Wire(User, Blocks([EncodeResult(m)]))]
  }

  function ToAnthropic(msgs: seq<Message>): seq<Wire> {
    if msgs == [] then [] else Add(ToAnthropic(msgs[..|msgs| - 1]), msgs[|msgs| - 1])
  }

  /** The last system message wins; the others are dropped. */
  function SystemOf(msgs: seq<Message>): string {
    if msgs == [] then ""
    else if msgs[|msgs| - 1].role == System then msgs[|msgs| - 1].content
    else SystemOf(msgs[..|msgs| - 1])
  }

  method EncodeAssistant(m: Message) returns (content: Content)
    requires m.role == Assistant && (m.blocks != [] || m.toolCalls != [])
    ensures content == View(m)
  {
    var out: seq<WireBlock> := [];
    if m.blocks != [] {
      for i := 0 to |m.blocks|
        invariant out == EncodeBlocks(m.blocks[..i])
      {
        assert m.blocks[..i + 1][..i] == m.blocks[..i];
        out := out + [EncodeBlock(m.blocks[i])];
      }
      assert m.blocks[..|m.blocks|] == m.blocks;
      return Blocks(out);
    }
    if m.content != "" {
      out := out + [TextBlock(m.content)];
    }
    ghost var text := out;
    for i := 0 to |m.toolCalls|
      invariant out == text + EncodeCalls(m.toolCalls[..i])
    {
      assert m.toolCalls[..i + 1][..i] == m.toolCalls[..i];
      var c := m.toolCalls[i];
      out := out + [UseBlock(c.id, c.name, DecodedFrom(c.arguments))];
    }
    assert m.toolCalls[..|m.toolCalls|] == m.toolCalls;
    content := Blocks(out);
  }

  method AppendResult(wires: seq<Wire>, m: Message) returns (out: seq<Wire>)
    requires m.role == Tool
    ensures out == Add(wires, m)
  {
    var n := |wires|;
    if n > 0 && wires[n - 1].role == User && wires[n - 1].content.Blocks? {
      return wires[n - 1 := wires[n - 1].(content := Blocks(wires[n - 1].content.blocks + [EncodeResult(m)]))];
    }
    out := wires + [Wire(User, Blocks([EncodeResult(m)]))];
  }

  /** The conversion loop; a run of tool messages is rewritten into the user message before it. */
  method ConvertMessages(msgs: seq<Message>) returns (system: string, wires: seq<Wire>)
    ensures wires == ToAnthropic(msgs) && system == SystemOf(msgs)
  {
    system, wires := "", [];
    for i := 0 to |msgs|
      invariant wires == ToAnthropic(msgs[..i]) && system == SystemOf(msgs[..i])
    {
      assert msgs[..i + 1][..i] == msgs[..i];
      var m := msgs[i];
      if m.role == System {
        system := m.content;
        continue;
      }
      if m.role == Tool {
        wires := AppendResult(wires, m);
        continue;
      }
      if m.role == Assistant && (m.blocks != [] || m.toolCalls != []) {
        var content := EncodeAssistant(m);
        wires := wires + [Wire(m.role, content)];
        continue;
      }
      wires := wires + [Wire(m.role, Plain(m.content))];
    }
    assert msgs[..|msgs|] == msgs;
  }

  // ---- merging loses nothing ----

  datatype Item = Result(block: WireBlock) | Turn(role: Role, content: Content)

  /** What the input says, message by message, without the system messages. */
  function Items(msgs: seq<Message>): seq<Item> {
    if msgs == [] then []
    else
      var m := msgs[|msgs| - 1];
      Items(msgs[..|msgs| - 1])
      + if m.role == System then [] else if m.role == Tool then [Result(EncodeResult(m))] else [Turn(m.role, View(m))]
  }

  function Results(blocks: seq<WireBlock>): seq<Item> {
    if blocks == [] then [] else Results(blocks[..|blocks| - 1]) + [Result(blocks[|blocks| - 1])]
  }

  function SplitOne(w: Wire): seq<Item> {
    if IsResults(w) then Results(w.content.blocks) else [Turn(w.role, w.content)]
  }

  /** Splits every user message of results back into single results. */
  function Split(wires: seq<Wire>): seq<Item> {
    if wires == [] then [] else Split(wires[..|wires| - 1]) + SplitOne(wires[|wires| - 1])
  }

  /** Runs of results are as long as can be, and none is empty. */
  ghost predicate Merged(wires: seq<Wire>) {
    && (forall i :: 0 <= i < |wires| && IsResults(wires[i]) ==> wires[i].content.blocks != [])
    && (forall i, j :: 0 <= i && j == i + 1 && j < |wires| ==> !(IsResults(wires[i]) && IsResults(wires[j])))
  }

  lemma SplitAppend(wires: seq<Wire>, w: Wire)
    ensures Split(wires + [w]) == Split(wires) + SplitOne(w)
  {
    assert (wires + [w])[..|wires|] == wires;
  }

  lemma ResultsAppend(blocks: seq<WireBlock>, b: WireBlock)
    ensures Results(blocks + [b]) == Results(blocks) + [Result(b)]
  {
    assert (blocks + [b])[..|blocks|] == blocks;
  }

  lemma MergedAppend(wires: seq<Wire>, w: Wire)
    requires Merged(wires) && (IsResults(w) ==> w.content.blocks != [])
    requires IsResults(w) ==> wires == [] || !IsResults(wires[|wires| - 1])
    ensures Merged(wires + [w])
  {
    var all := wires + [w];
    assert forall i :: 0 <= i < |wires| ==> all[i] == wires[i];
  }

  lemma MergedInit(wires: seq<Wire>)
    requires Merged(wires) && wires != []
    ensures Merged(wires[..|wires| - 1])
    ensures |wires| > 1 && IsResults(wires[|wires| - 1]) ==> !IsResults(wires[..|wires| - 1][|wires| - 2])
  {
    var init := wires[..|wires| - 1];
    assert forall i :: 0 <= i < |init| ==> init[i] == wires[i];
  }

  lemma NoPlainTurnIsResults(m: Message)
    requires m.role != Tool
    ensures !IsResults(Wire(m.role, View(m)))
  {}

  lemma {:induction false} SplitOfRun(wires: seq<Wire>, b: WireBlock)
    requires wires != [] && IsResults(wires[|wires| - 1])
    ensures var init, last := wires[..|wires| - 1], wires[|wires| - 1];
            Split(init + [Wire(User, Blocks(last.content.blocks + [b]))]) == Split(wires) + [Result(b)]
  {
    var init, last := wires[..|wires| - 1], wires[|wires| - 1];
    ResultsAppend(last.content.blocks, b);
    SplitAppend(init, Wire(User, Blocks(last.content.blocks + [b])));
    assert Split(wires) == Split(init) + Results(last.content.blocks);
  }

  lemma {:induction false} AddToRun(wires: seq<Wire>, b: WireBlock)
    requires Merged(wires) && wires != [] && IsResults(wires[|wires| - 1])
    ensures var init, last := wires[..|wires| - 1], wires[|wires| - 1];
            var longer := init + [Wire(User, Blocks(last.content.blocks + [b]))];
            Split(longer) == Split(wires) + [Result(b)] && Merged(longer)
  {
    SplitOfRun(wires, b);
    MergedInit(wires);
    MergedAppend(wires[..|wires| - 1], Wire(User, Blocks(wires[|wires| - 1].content.blocks + [b])));
  }

  lemma StartRun(wires: seq<Wire>, b: WireBlock)
    requires Merged(wires) && (wires == [] || !IsResults(wires[|wires| - 1]))
    ensures var longer := wires + [Wire(User, Blocks([b]))];
            Split(longer) == Split(wires) + [Result(b)] && Merged(longer)
  {
    assert Results([b]) == [Result(b)] by { assert [b][..0] == []; }
    SplitAppend(wires, Wire(User, Blocks([b])));
    MergedAppend(wires, Wire(User, Blocks([b])));
  }

  lemma AddSplits(wires: seq<Wire>, m: Message)
    requires m.role == Tool && Merged(wires)
    ensures Split(Add(wires, m)) == Split(wires) + [Result(EncodeResult(m))] && Merged(Add(wires, m))
  {
    var b := EncodeResult(m);
    if wires != [] && IsResults(wires[|wires| - 1]) {
      AddToRun(wires, b);
    } else {
      StartRun(wires, b);
    }
  }

  /** Splitting recovers the input in order, and results of different turns are never merged. */
  lemma {:induction false} MergeLosesNothing(msgs: seq<Message>)
    ensures Split(ToAnthropic(msgs)) == Items(msgs) && Merged(ToAnthropic(msgs))
  {
    if msgs == [] {
    } else {
      var init, m := msgs[..|msgs| - 1], msgs[|msgs| - 1];
      MergeLosesNothing(init);
      if m.role == Tool {
        AddSplits(ToAnthropic(init), m);
      } else if m.role != System {
        NoPlainTurnIsResults(m);
        SplitAppend(ToAnthropic(init), Wire(m.role, View(m)));
        MergedAppend(ToAnthropic(init), Wire(m.role, View(m)));
      }
    }
  }

  lemma {:induction false} ResultsAt(blocks: seq<WireBlock>)
    ensures |Results(blocks)| == |blocks|
    ensures forall i :: 0 <= i < |blocks| ==> Results(blocks)[i] == Result(blocks[i])
  {
    if blocks == [] {
    } else {
      var init := blocks[..|blocks| - 1];
      ResultsAt(init);
      assert forall i :: 0 <= i < |init| ==> init[i] == blocks[i];
    }
  }

  lemma EndsWithTurn(wires: seq<Wire>)
    requires wires != [] && !IsResults(wires[|wires| - 1])
    ensures Split(wires) != [] && Split(wires)[|Split(wires)| - 1] == Turn(wires[|wires| - 1].role, wires[|wires| - 1].content)
  {}

  lemma EndsWithResult(wires: seq<Wire>)
    requires Merged(wires) && wires != [] && IsResults(wires[|wires| - 1])
    ensures var blocks := wires[|wires| - 1].content.blocks;
            && Split(wires) == Split(wires[..|wires| - 1]) + Results(blocks)
            && |blocks| > 0 && Split(wires)[|Split(wires)| - 1] == Result(blocks[|blocks| - 1])
  {
    ResultsAt(wires[|wires| - 1].content.blocks);
  }

  /** A message of results stands for a longest run of results at the end of the split. */
  lemma RunAtEnd(wires: seq<Wire>)
    requires Merged(wires) && wires != [] && IsResults(wires[|wires| - 1])
    ensures var items, n := Split(wires), |wires[|wires| - 1].content.blocks|;
            && n <= |items|
            && (forall k :: |items| - n <= k < |items| ==> items[k].Result?)
            && (n < |items| ==> items[|items| - n - 1].Turn?)
  {
    var init, blocks := wires[..|wires| - 1], wires[|wires| - 1].content.blocks;
    EndsWithResult(wires);
    ResultsAt(blocks);
    MergedInit(wires);
    if init != [] { EndsWithTurn(init); }
  }

  lemma RunIsMaximal(a: seq<Wire>, b: seq<Wire>)
    requires Merged(a) && Merged(b) && Split(a) == Split(b) && a != [] && b != []
    requires IsResults(a[|a| - 1]) && IsResults(b[|b| - 1])
    ensures |b[|b| - 1].content.blocks| <= |a[|a| - 1].content.blocks|
  {
    RunAtEnd(a);
    RunAtEnd(b);
    var items, n := Split(a), |a[|a| - 1].content.blocks|;
    if n < |items| { assert items[|items| - n - 1].Turn?; }
  }

  lemma SameTail<T>(a: seq<T>, b: seq<T>, c: seq<T>, d: seq<T>)
    requires a + b == c + d && |b| == |d|
    ensures a == c && b == d
  {
    assert (a + b)[..|a|] == a && (c + d)[..|c|] == c;
    assert (a + b)[|a|..] == b && (c + d)[|c|..] == d;
  }

  lemma LastIsSame(a: seq<Wire>, b: seq<Wire>)
    requires Merged(a) && Merged(b) && Split(a) == Split(b) && a != [] && b != []
    ensures a[|a| - 1] == b[|b| - 1] && Split(a[..|a| - 1]) == Split(b[..|b| - 1])
  {
    var v, w := a[|a| - 1], b[|b| - 1];
    if IsResults(v) { EndsWithResult(a); } else { EndsWithTurn(a); }
    if IsResults(w) { EndsWithResult(b); } else { EndsWithTurn(b); }
    if IsResults(v) {
      RunIsMaximal(a, b);
      RunIsMaximal(b, a);
      ResultsAt(v.content.blocks);
      ResultsAt(w.content.blocks);
    }
    SameTail(Split(a[..|a| - 1]), SplitOne(v), Split(b[..|b| - 1]), SplitOne(w));
    if IsResults(v) { SameResults(v.content.blocks, w.content.blocks); }
  }

  /** The merged form is the only one that splits into the input's items. */
  lemma {:induction false} MergeIsUnique(a: seq<Wire>, b: seq<Wire>)
    requires Merged(a) && Merged(b) && Split(a) == Split(b)
    ensures a == b
  {
    if a == [] || b == [] {
      if a != [] { EndsNonEmpty(a); }
      if b != [] { EndsNonEmpty(b); }
    } else {
      LastIsSame(a, b);
      MergedInit(a);
      MergedInit(b);
      MergeIsUnique(a[..|a| - 1], b[..|b| - 1]);
      assert a == a[..|a| - 1] + [a[|a| - 1]] && b == b[..|b| - 1] + [b[|b| - 1]];
    }
  }

  lemma EndsNonEmpty(wires: seq<Wire>)
    requires Merged(wires) && wires != []
    ensures Split(wires) != []
  {
    if IsResults(wires[|wires| - 1]) { EndsWithResult(wires); } else { EndsWithTurn(wires); }
  }

  lemma SameResults(a: seq<WireBlock>, b: seq<WireBlock>)
    requires Results(a) == Results(b)
    ensures a == b
  {
    ResultsAt(a);
    ResultsAt(b);
    forall i | 0 <= i < |a| ensures a[i] == b[i] { assert Results(a)[i] == Results(b)[i]; }
  }

  // ---- what the provider reads is what the messages say ----

  /** What the provider reads back from an echoed block. */
  function ReadBack(w: WireBlock): ContentBlock {
    match w
    case TextBlock(text) => ContentBlock("text", text, "", "", "", "", "", "")
    case ThinkingBlock(thinking, signature) =>
      ContentBlock("thinking", "", "", "", "", thinking, "", if signature.Some? then signature.value else "")
    case UseBlock(id, name, Received(json)) => ContentBlock("tool_use", "", name, id, json, "", "", "")
    case UseBlock(id, name, DecodedFrom(arguments)) => ContentBlock("tool_use", "", name, id, arguments, "", "", "")
    case ResultBlock(content, _) => ContentBlock("tool_result", content, "", "", "", "", "", "")
    case BareBlock(kind) => ContentBlock(kind, "", "", "", "", "", "", "")
  }

  /** The fields that may be filled in a block of this kind if the echo is to keep them. */
  predicate Echoable(b: ContentBlock) {
    && (b.text != "" ==> b.kind == "text")
    && (b.thinking != "" || b.signature != "" ==> b.kind == "thinking")
    && (b.id != "" || b.name != "" || b.input != "" ==> b.kind == "tool_use")
    && b.data == ""
  }

  /**
    Blocks are to be sent back unchanged. They are exactly when no block fills a field outside its
    kind's: the data of a redacted thinking block never goes back.
   */
  lemma EchoIsExactIff(b: ContentBlock)
    ensures ReadBack(EncodeBlock(b)) == b <==> Echoable(b)
    ensures ReadBack(EncodeBlock(ContentBlock("redacted_thinking", "", "", "", "", "", "x", ""))).data == ""
    ensures b.kind == "thinking" ==> EncodeBlock(b).ThinkingBlock? && (EncodeBlock(b).signature == None <==> b.signature == "")
  {}

  datatype Said = SaidText(role: Role, text: string) | SaidBlocks(role: Role, blocks: seq<ContentBlock>)
                | SaidResult(content: string, callId: Option<string>)

  /** How the provider understands one item of its input. */
  function Understood(it: Item): Said {
    match it
    case Result(b) => SaidResult(ReadBack(b).text, if b.ResultBlock? then b.useId else None)
    case Turn(role, Plain(text)) => SaidText(role, text)
    case Turn(role, Blocks(blocks)) =>
      SaidBlocks(role, seq(|blocks|, i requires 0 <= i < |blocks| => ReadBack(blocks[i])))
  }

  function WithoutSystem(msgs: seq<Message>): seq<Message> {
    if msgs == [] then []
    else (if msgs[0].role == System then [] else [msgs[0]]) + WithoutSystem(msgs[1..])
  }

  /** The text of a turn if it has one, then its calls with id, name and arguments. */
  ghost predicate SaysCalls(blocks: seq<ContentBlock>, text: string, calls: seq<ToolCall>) {
    var n := if text == "" then 0 else 1;
    && |blocks| == n + |calls|
    && (n == 1 ==> blocks[0] == ContentBlock("text", text, "", "", "", "", "", ""))
    && forall i :: 0 <= i < |calls| ==>
         blocks[n + i] == ContentBlock("tool_use", "", calls[i].name, calls[i].id, calls[i].arguments, "", "", "")
  }

  /** The same blocks in the same order, unchanged but for what an echo cannot keep. */
  ghost predicate Echoes(read: seq<ContentBlock>, blocks: seq<ContentBlock>) {
    && |read| == |blocks|
    && forall i :: 0 <= i < |blocks| ==> KeepsOwnFields(read[i], blocks[i]) && (Echoable(blocks[i]) ==> read[i] == blocks[i])
  }

  predicate KeepsOwnFields(read: ContentBlock, b: ContentBlock) {
    && read.kind == b.kind
    && (b.kind == "text" ==> read.text == b.text)
    && (b.kind == "thinking" ==> read.thinking == b.thinking && read.signature == b.signature)
    && (b.kind == "tool_use" ==> read.id == b.id && read.name == b.name && read.input == b.input)
  }

  /** What is understood is what the message says. */
  ghost predicate Conveys(said: Said, m: Message) {
    if m.role == Tool then
      said == SaidResult(m.content, if m.toolCallId == "" then None else Some(m.toolCallId))
    else if m.role == Assistant && m.blocks != [] then
      said.SaidBlocks? && said.role == Assistant && Echoes(said.blocks, m.blocks)
    else if m.role == Assistant && m.toolCalls != [] then
      said.SaidBlocks? && said.role == Assistant && SaysCalls(said.blocks, m.content, m.toolCalls)
    else said == SaidText(m.role, m.content)
  }

  lemma {:induction false} EncodedBlocksAt(blocks: seq<ContentBlock>)
    ensures |EncodeBlocks(blocks)| == |blocks|
    ensures forall i :: 0 <= i < |blocks| ==> EncodeBlocks(blocks)[i] == EncodeBlock(blocks[i])
  {
    if blocks == [] {
    } else {
      EncodedBlocksAt(blocks[..|blocks| - 1]);
    }
  }

  lemma {:induction false} EncodedCallsAt(calls: seq<ToolCall>)
    ensures |EncodeCalls(calls)| == |calls|
    ensures forall i :: 0 <= i < |calls| ==>
              EncodeCalls(calls)[i] == UseBlock(calls[i].id, calls[i].name, DecodedFrom(calls[i].arguments))
  {
    if calls == [] {
    } else {
      EncodedCallsAt(calls[..|calls| - 1]);
    }
  }

  lemma BlocksConvey(m: Message)
    requires m.role == Assistant && m.blocks != []
    ensures Conveys(Understood(Turn(m.role, View(m))), m)
  {
    EncodedBlocksAt(m.blocks);
    forall i | 0 <= i < |m.blocks|
      ensures var b := ReadBack(EncodeBlock(m.blocks[i]));
              KeepsOwnFields(b, m.blocks[i]) && (Echoable(m.blocks[i]) ==> b == m.blocks[i])
    {
      EchoIsExactIff(m.blocks[i]);
    }
  }

  lemma CallsConvey(m: Message)
    requires m.role == Assistant && m.blocks == [] && m.toolCalls != []
    ensures Conveys(Understood(Turn(m.role, View(m))), m)
  {
    EncodedCallsAt(m.toolCalls);
  }

  lemma TurnConveys(m: Message)
    requires m.role != System && m.role != Tool
    ensures Conveys(Understood(Turn(m.role, View(m))), m)
  {
    if m.role == Assistant && m.blocks != [] {
      BlocksConvey(m);
    } else if m.role == Assistant && m.toolCalls != [] {
      CallsConvey(m);
    }
  }

  lemma {:induction false} WithoutSystemAppend(msgs: seq<Message>, m: Message)
    ensures WithoutSystem(msgs + [m]) == WithoutSystem(msgs) + if m.role == System then [] else [m]
  {
    if msgs == [] {
      assert [m][1..] == [];
    } else {
      assert (msgs + [m])[1..] == msgs[1..] + [m];
      WithoutSystemAppend(msgs[1..], m);
    }
  }

  /** Item by item, what is understood is what was said. */
  ghost predicate AllConveyed(items: seq<Item>, said: seq<Message>) {
    |items| == |said| && forall i :: 0 <= i < |said| ==> Conveys(Understood(items[i]), said[i])
  }

  lemma ConveyedAppend(items: seq<Item>, said: seq<Message>, it: Item, m: Message)
    requires AllConveyed(items, said) && Conveys(Understood(it), m)
    ensures AllConveyed(items + [it], said + [m])
  {
    forall i | 0 <= i < |said| + 1 ensures Conveys(Understood((items + [it])[i]), (said + [m])[i]) {}
  }

  lemma {:induction false} ItemsConvey(msgs: seq<Message>)
    ensures AllConveyed(Items(msgs), WithoutSystem(msgs))
  {
    if msgs == [] {
    } else {
      var init, m := msgs[..|msgs| - 1], msgs[|msgs| - 1];
      assert msgs == init + [m];
      ItemsConvey(init);
      WithoutSystemAppend(init, m);
      if m.role == System {
        assert Items(msgs) == Items(init) && WithoutSystem(msgs) == WithoutSystem(init);
      } else if m.role == Tool {
        ConveyedAppend(Items(init), WithoutSystem(init), Result(EncodeResult(m)), m);
      } else {
        TurnConveys(m);
        ConveyedAppend(Items(init), WithoutSystem(init), Turn(m.role, View(m)), m);
      }
    }
  }

  /**
    Item by item the provider understands what the messages say: texts with their role, calls with id, name and
    arguments, results with content and call id, preserved blocks as far as their kind can carry them.
   */
  lemma {:induction false} ConversionConveys(msgs: seq<Message>)
    ensures AllConveyed(Split(ToAnthropic(msgs)), WithoutSystem(msgs))
  {
    MergeLosesNothing(msgs);
    ItemsConvey(msgs);
  }

  /** The system text is that of the last system message, and empty when there is none. */
  lemma {:induction false} LastSystemWins(msgs: seq<Message>, k: nat)
    requires k <= |msgs| && (k > 0 ==> msgs[k - 1].role == System)
    requires forall j :: k <= j < |msgs| ==> msgs[j].role != System
    ensures SystemOf(msgs) == if k == 0 then "" else msgs[k - 1].content
    decreases |msgs|
  {
    if k < |msgs| { LastSystemWins(msgs[..|msgs| - 1], k); }
  }

  // ---- calls and results in the Anthropic form ----

  function UsesOf(blocks: seq<WireBlock>): seq<string> {
    if blocks == [] then []
    else UsesOf(blocks[..|blocks| - 1]) + if blocks[|blocks| - 1].UseBlock? then [blocks[|blocks| - 1].id] else []
  }

  /** Ids of the tools an assistant message uses. */
  function WireUses(w: Wire): seq<string> {
    if w.role == Assistant && w.content.Blocks? then UsesOf(w.content.blocks) else []
  }

  function Keys(ids: seq<string>): seq<Option<string>> {
    seq(|ids|, i requires 0 <= i < |ids| => Key(ids[i]))
  }

  /** The keys that a message of results answers. */
  function Answers(w: Wire): seq<Option<string>>
    requires w.content.Blocks?
  {
    var blocks := w.content.blocks;
    seq(|blocks|, i requires 0 <= i < |blocks| => if blocks[i].ResultBlock? then blocks[i].useId else None)
  }

  /** One user message right after an assistant message, with exactly its results in order. */
  ghost predicate Answered(w: Wire, next: Wire) {
    IsResults(next) && Answers(next) == Keys(WireUses(w))
  }

  /** Every use is answered by the very next message, and results follow nothing else. */
  ghost predicate Paired(wires: seq<Wire>) {
    && (forall i, j :: 0 <= i && j == i + 1 && j < |wires| ==>
          if WireUses(wires[i]) != [] then Answered(wires[i], wires[j]) else !IsResults(wires[j]))
    && (wires != [] ==> !IsResults(wires[0]) && WireUses(wires[|wires| - 1]) == [])
  }

  lemma PairedTurn(wires: seq<Wire>, w: Wire)
    requires Paired(wires) && WireUses(w) == [] && !IsResults(w)
    ensures Paired(wires + [w])
  {
    var all := wires + [w];
    assert forall i :: 0 <= i < |wires| ==> all[i] == wires[i];
  }

  lemma PairedCall(wires: seq<Wire>, w: Wire, next: Wire)
    requires Paired(wires) && !IsResults(w) && WireUses(w) != [] && Answered(w, next)
    ensures Paired(wires + [w, next])
  {
    var all := wires + [w, next];
    assert forall i :: 0 <= i < |wires| ==> all[i] == wires[i];
    assert all[|wires|] == w && all[|wires| + 1] == next;
  }

  /** An assistant message at the end, its uses answered so far by done, still waiting for ids. */
  ghost predicate Waiting(wires: seq<Wire>, ids: seq<string>) {
    || (wires != [] && WireUses(wires[|wires| - 1]) == ids && !IsResults(wires[|wires| - 1])
        && Paired(wires[..|wires| - 1]))
    || (|wires| >= 2 && IsResults(wires[|wires| - 1]) && wires[|wires| - 1].content.blocks != []
        && !IsResults(wires[|wires| - 2])
        && Keys(WireUses(wires[|wires| - 2])) == Answers(wires[|wires| - 1]) + Keys(ids)
        && Paired(wires[..|wires| - 2]))
  }

  ghost predicate PairedUpTo(wires: seq<Wire>, ids: seq<string>) {
    if ids == [] then Paired(wires) else Waiting(wires, ids)
  }

  lemma UsesAppend(blocks: seq<WireBlock>, b: WireBlock)
    ensures UsesOf(blocks + [b]) == UsesOf(blocks) + if b.UseBlock? then [b.id] else []
  {
    assert (blocks + [b])[..|blocks|] == blocks;
  }

  lemma {:induction false} UsesOfBlocks(blocks: seq<ContentBlock>)
    ensures UsesOf(EncodeBlocks(blocks)) == UseIds(blocks)
  {
    if blocks == [] {
    } else {
      UsesOfBlocks(blocks[..|blocks| - 1]);
      UsesAppend(EncodeBlocks(blocks[..|blocks| - 1]), EncodeBlock(blocks[|blocks| - 1]));
    }
  }

  lemma CallIdsInit(calls: seq<ToolCall>)
    requires calls != []
    ensures CallIds(calls) == CallIds(calls[..|calls| - 1]) + [calls[|calls| - 1].id]
  {}

  lemma {:induction false} UsesOfCalls(text: seq<WireBlock>, calls: seq<ToolCall>)
    requires UsesOf(text) == []
    ensures UsesOf(text + EncodeCalls(calls)) == CallIds(calls)
  {
    if calls == [] {
      assert text + EncodeCalls(calls) == text;
    } else {
      var init, c := calls[..|calls| - 1], calls[|calls| - 1];
      UsesOfCalls(text, init);
      var use := UseBlock(c.id, c.name, DecodedFrom(c.arguments));
      UsesAppend(text + EncodeCalls(init), use);
      assert text + EncodeCalls(calls) == text + EncodeCalls(init) + [use];
      CallIdsInit(calls);
    }
  }

  lemma ViewKeepsCalls(m: Message)
    requires m.role == Assistant && CallsAgree(m)
    ensures WireUses(Wire(m.role, View(m))) == CallIds(m.toolCalls)
  {
    if m.blocks != [] {
      UsesOfBlocks(m.blocks);
    } else if m.toolCalls != [] {
      assert [TextBlock(m.content)][..0] == [];
      UsesOfCalls(if m.content != "" then [TextBlock(m.content)] else [], m.toolCalls);
    }
  }

  lemma KeysTail(ids: seq<string>)
    requires ids != []
    ensures Keys(ids) == [Key(ids[0])] + Keys(ids[1..])
  {}

  lemma AnswerAdds(wires: seq<Wire>, ids: seq<string>, m: Message)
    requires Waiting(wires, ids) && ids != [] && m.role == Tool && m.toolCallId == ids[0]
    ensures PairedUpTo(Add(wires, m), ids[1..])
  {
    KeysTail(ids);
    var n := |wires|;
    var last := wires[n - 1];
    if IsResults(last) {
      var before, w, next := wires[..n - 2], wires[n - 2], Wire(User, Blocks(last.content.blocks + [EncodeResult(m)]));
      assert Add(wires, m) == before + [w, next];
      assert Answers(next) == Answers(last) + [Key(ids[0])];
      AnswerStep(before, w, next, ids[1..]);
    } else {
      var before, next := wires[..n - 1], Wire(User, Blocks([EncodeResult(m)]));
      assert Add(wires, m) == before + [last, next];
      assert Answers(next) == [Key(ids[0])];
      AnswerStep(before, last, next, ids[1..]);
    }
  }

  lemma AnswerStep(before: seq<Wire>, w: Wire, next: Wire, rest: seq<string>)
    requires Paired(before) && !IsResults(w) && IsResults(next) && next.content.blocks != []
    requires Keys(WireUses(w)) == Answers(next) + Keys(rest)
    ensures PairedUpTo(before + [w, next], rest)
  {
    var all := before + [w, next];
    assert |Keys(WireUses(w))| == |WireUses(w)|;
    if rest == [] {
      assert Answers(next) + Keys(rest) == Answers(next);
      PairedCall(before, w, next);
    } else {
      assert all[..|all| - 2] == before && all[|all| - 2] == w && all[|all| - 1] == next;
    }
  }

  lemma PairedTail(wires: seq<Wire>, w: Wire)
    requires Paired(wires) && !IsResults(w)
    ensures PairedUpTo(wires + [w], WireUses(w))
  {
    if WireUses(w) == [] {
      PairedTurn(wires, w);
    } else {
      assert (wires + [w])[..|wires|] == wires;
    }
  }

  lemma TurnAdds(wires: seq<Wire>, m: Message)
    requires Paired(wires) && m.role != Tool && (m.role == Assistant ==> CallsAgree(m))
    ensures PairedUpTo(Add(wires, m), if m.role == Assistant then CallIds(m.toolCalls) else [])
  {
    if m.role != System {
      NoPlainTurnIsResults(m);
      if m.role == Assistant { ViewKeepsCalls(m); }
      PairedTail(wires, Wire(m.role, View(m)));
    }
  }

  lemma {:induction false} ScanIsPaired(msgs: seq<Message>)
    requires Scan(Some([]), msgs).Some?
    ensures PairedUpTo(ToAnthropic(msgs), Scan(Some([]), msgs).value)
  {
    if msgs == [] {
    } else {
      var init, m := msgs[..|msgs| - 1], msgs[|msgs| - 1];
      ScanIsPaired(init);
      var ids := Scan(Some([]), init).value;
      if ids != [] {
        AnswerAdds(ToAnthropic(init), ids, m);
      } else {
        TurnAdds(ToAnthropic(init), m);
      }
    }
  }

  /** In the Anthropic form of a well-formed transcript each tool-using turn is followed by one message with its results. */
  lemma ShapedIsPaired(msgs: seq<Message>)
    requires Shaped(msgs)
    ensures Paired(ToAnthropic(msgs))
  {
    ScanIsPaired(msgs);
  }

  // ---- decoding a response ----

  datatype Reply = Reply(text: string, calls: seq<ToolCall>, blocks: seq<ContentBlock>)

  function TextOf(blocks: seq<ContentBlock>): string {
    if blocks == [] then ""
    else TextOf(blocks[..|blocks| - 1]) + if blocks[|blocks| - 1].kind == "text" then blocks[|blocks| - 1].text else ""
  }

  function CallsOf(blocks: seq<ContentBlock>): seq<ToolCall> {
    if blocks == [] then []
    else
      var b := blocks[|blocks| - 1];
      CallsOf(blocks[..|blocks| - 1]) + if b.kind == "tool_use" then [ToolCall(b.id, b.name, b.input)] else []
  }

  /** Keeps every block of a response and reads text and calls off them. */
  method DecodeResponse(content: seq<ContentBlock>) returns (r: Reply)
    ensures r == Reply(TextOf(content), CallsOf(content), content)
    ensures CallIds(r.calls) == UseIds(r.blocks)
  {
    r := Reply("", [], []);
    for i := 0 to |content|
      invariant r == Reply(TextOf(content[..i]), CallsOf(content[..i]), content[..i])
    {
      assert content[..i + 1][..i] == content[..i];
      var b := content[i];
      r := r.(blocks := r.blocks + [b]);
      if b.kind == "text" {
        r := r.(text := r.text + b.text);
      } else if b.kind == "tool_use" {
        r := r.(calls := r.calls + [ToolCall(b.id, b.name, b.input)]);
      }
    }
    assert content[..|content|] == content;
    DecodedIdsAgree(content);
  }

  lemma {:induction false} DecodedIdsAgree(blocks: seq<ContentBlock>)
    ensures CallIds(CallsOf(blocks)) == UseIds(blocks)
  {
    if blocks == [] {
    } else {
      DecodedIdsAgree(blocks[..|blocks| - 1]);
    }
  }

  function OfKind(blocks: seq<ContentBlock>, kind: string): seq<ContentBlock> {
    if blocks == [] then []
    else (if blocks[0].kind == kind then [blocks[0]] else []) + OfKind(blocks[1..], kind)
  }

  function Texts(blocks: seq<ContentBlock>): string { if blocks == [] then "" else blocks[0].text + Texts(blocks[1..]) }

  lemma {:induction false} OfKindAppend(blocks: seq<ContentBlock>, b: ContentBlock, kind: string)
    ensures OfKind(blocks + [b], kind) == OfKind(blocks, kind) + if b.kind == kind then [b] else []
  {
    if blocks == [] {
      assert [b][1..] == [];
    } else {
      var head, last := if blocks[0].kind == kind then [blocks[0]] else [], if b.kind == kind then [b] else [];
      assert (blocks + [b])[1..] == blocks[1..] + [b];
      OfKindAppend(blocks[1..], b, kind);
      assert head + (OfKind(blocks[1..], kind) + last) == head + OfKind(blocks[1..], kind) + last;
    }
  }

  lemma {:induction false} TextsAppend(blocks: seq<ContentBlock>, b: ContentBlock)
    ensures Texts(blocks + [b]) == Texts(blocks) + b.text
  {
    if blocks == [] {
      assert [b][1..] == [] && b.text + "" == b.text;
    } else {
      assert (blocks + [b])[1..] == blocks[1..] + [b];
      TextsAppend(blocks[1..], b);
    }
  }

  /** The text of a reply joins its text blocks, and its calls are its tool_use blocks, field by field and in order. */
  lemma {:induction false} DecodedReads(blocks: seq<ContentBlock>)
    ensures TextOf(blocks) == Texts(OfKind(blocks, "text"))
    ensures var uses, calls := OfKind(blocks, "tool_use"), CallsOf(blocks);
            && |calls| == |uses|
            && forall k :: 0 <= k < |uses| ==>
                 calls[k].id == uses[k].id && calls[k].name == uses[k].name && calls[k].arguments == uses[k].input
  {
    if blocks == [] {
    } else {
      var init, b := blocks[..|blocks| - 1], blocks[|blocks| - 1];
      assert blocks == init + [b];
      DecodedReads(init);
      OfKindAppend(init, b, "text");
      OfKindAppend(init, b, "tool_use");
      TextsAppend(OfKind(init, "text"), b);
      if b.kind != "text" { assert OfKind(init, "text") + [] == OfKind(init, "text"); }
    }
  }

  // ---- replay of persisted turns ----

  /** A persisted message; calls and results are [] when absent or not decodable. */
  datatype Stored = Stored(role: Role, content: string, calls: seq<ToolCall>, results: seq<ToolResult>)

  function ToolMessages(results: seq<ToolResult>): seq<Message> {
    if results == [] then []
    else
      var r := results[|results| - 1];
      ToolMessages(results[..|results| - 1]) + [ToolMessage(r.callId, r.content)]
  }

  predicate HasCalls(m: Stored) { m.role == Assistant && m.calls != [] && m.results != [] }

  function ReplayOne(m: Stored): seq<Message> {
    if HasCalls(m) then [Message(m.role, m.content, m.calls, "", [])] + ToolMessages(m.results)
    else [PlainMessage(m.role, m.content)]
  }

  function Replay(stored: seq<Stored>): seq<Message> {
    if stored == [] then [] else Replay(stored[..|stored| - 1]) + ReplayOne(stored[|stored| - 1])
  }

  method AppendResults(msgs: seq<Message>, results: seq<ToolResult>) returns (out: seq<Message>)
    ensures out == msgs + ToolMessages(results)
  {
    out := msgs;
    for j := 0 to |results|
      invariant out == msgs + ToolMessages(results[..j])
    {
      assert results[..j + 1][..j] == results[..j];
      out := out + [ToolMessage(results[j].callId, results[j].content)];
    }
    assert results[..|results|] == results;
  }

  method ReplayTurn(msgs: seq<Message>, m: Stored) returns (out: seq<Message>)
    ensures out == msgs + ReplayOne(m)
  {
    if m.role != Assistant || m.calls == [] || m.results == [] {
      return msgs + [PlainMessage(m.role, m.content)];
    }
    out := AppendResults(msgs + [Message(m.role, m.content, m.calls, "", [])], m.results);
  }

  method ReplayMessages(stored: seq<Stored>) returns (msgs: seq<Message>)
    ensures msgs == Replay(stored)
  {
    msgs := [];
    for i := 0 to |stored|
      invariant msgs == Replay(stored[..i])
    {
      assert stored[..i + 1][..i] == stored[..i];
      msgs := ReplayTurn(msgs, stored[i]);
    }
    assert stored[..|stored|] == stored;
  }

  lemma {:induction false} ToolMessagesAt(results: seq<ToolResult>)
    ensures |ToolMessages(results)| == |results|
    ensures forall k :: 0 <= k < |results| ==>
              ToolMessages(results)[k] == Message(Tool, results[k].content, [], results[k].callId, [])
  {
    if results == [] {
    } else {
      ToolMessagesAt(results[..|results| - 1]);
    }
  }

  /** What one stored turn is replayed as: its text and, with both calls and results, those. */
  ghost predicate Replays(turn: seq<Message>, m: Stored) {
    && turn != [] && turn[0].role == m.role && turn[0].content == m.content
    && if m.role == Assistant && m.calls != [] && m.results != [] then
         && turn[0].toolCalls == m.calls && |turn| == 1 + |m.results|
         && forall k :: 0 <= k < |m.results| ==>
              turn[1 + k] == Message(Tool, m.results[k].content, [], m.results[k].callId, [])
       else |turn| == 1 && turn[0].toolCalls == []
  }

  lemma {:induction false} ReplayPrefix(stored: seq<Stored>, n: nat)
    requires n <= |stored|
    ensures Replay(stored[..n]) <= Replay(stored)
    decreases |stored|
  {
    if n == |stored| {
      assert stored[..n] == stored;
    } else {
      ReplayPrefix(stored[..|stored| - 1], n);
      assert stored[..|stored| - 1][..n] == stored[..n];
    }
  }

  lemma ReplayOneTells(m: Stored)
    ensures Replays(ReplayOne(m), m)
  {
    ToolMessagesAt(m.results);
  }

  /** Stored turns are replayed one behind the other, each with what was stored. */
  lemma {:induction false} ReplayTells(stored: seq<Stored>, i: nat)
    requires i < |stored|
    ensures var before, upto := Replay(stored[..i]), Replay(stored[..i + 1]);
            before <= upto <= Replay(stored) && Replays(upto[|before|..], stored[i])
  {
    ReplayPrefix(stored, i + 1);
    assert stored[..i + 1][..i] == stored[..i];
    assert Replay(stored[..i + 1]) == Replay(stored[..i]) + ReplayOne(stored[i]);
    assert (Replay(stored[..i]) + ReplayOne(stored[i]))[|Replay(stored[..i])|..] == ReplayOne(stored[i]);
    ReplayOneTells(stored[i]);
  }

  function ResultIds(results: seq<ToolResult>): seq<string> {
    seq(|results|, i requires 0 <= i < |results| => results[i].callId)
  }

  /** Calls and results of a persisted turn belong together one to one. */
  predicate Aligned(m: Stored) { HasCalls(m) ==> CallIds(m.calls) == ResultIds(m.results) }

  /** Results answer ids one by one: they use up a prefix of them, or break the shape. */
  lemma {:induction false} ScanResults(ids: seq<string>, results: seq<ToolResult>)
    ensures Scan(Some(ids), ToolMessages(results))
            == if ResultIds(results) <= ids then Some(ids[|results|..]) else None
  {
    if results == [] {
    } else {
      var init, r := results[..|results| - 1], results[|results| - 1];
      ScanResults(ids, init);
      ScanOne(Some(ids), ToolMessages(init), ToolMessage(r.callId, r.content));
      assert ResultIds(results) == ResultIds(init) + [r.callId];
      if ResultIds(results) <= ids {
        assert ids[|init|..][1..] == ids[|results|..];
        assert ResultIds(init) <= ids;
      } else if ResultIds(init) <= ids && |init| < |ids| {
        assert ids[|init|..][0] != r.callId;
      }
    }
  }

  /** From a closed transcript a replayed turn closes again exactly when it is aligned. */
  lemma ScanReplayOne(m: Stored)
    requires m.role != Tool
    ensures Scan(Some([]), ReplayOne(m)) == Some([]) <==> Aligned(m)
    ensures var p := Scan(Some([]), ReplayOne(m)); p.None? || p == Some([]) || HasCalls(m)
  {
    if HasCalls(m) {
      var head := [Message(m.role, m.content, m.calls, "", [])];
      assert head[..0] == [];
      assert Scan(Some([]), head) == Some(CallIds(m.calls));
      ScanConcat(Some([]), head, ToolMessages(m.results));
      ScanResults(CallIds(m.calls), m.results);
    } else {
      assert [PlainMessage(m.role, m.content)][..0] == [];
      assert CallIds([]) == [];
    }
  }

  /** Nothing but a result may follow an unanswered call. */
  lemma ScanBroken(p: Pending, m: Stored)
    requires m.role != Tool && p != Some([])
    ensures Scan(p, ReplayOne(m)) == None
  {
    var head := if HasCalls(m) then Message(m.role, m.content, m.calls, "", []) else PlainMessage(m.role, m.content);
    assert [head][..0] == [];
    assert Scan(p, [head]) == None;
    if HasCalls(m) {
      ScanConcat(p, [head], ToolMessages(m.results));
      BrokenStaysBroken(ToolMessages(m.results));
    }
  }

  /** A well-formed replay stays well-formed with one more turn exactly when that turn is aligned. */
  lemma ShapedReplayExtends(stored: seq<Stored>, m: Stored)
    requires Shaped(Replay(stored)) && m.role != Tool
    ensures Shaped(Replay(stored + [m])) <==> Aligned(m)
  {
    assert (stored + [m])[..|stored|] == stored;
    ScanConcat(Some([]), Replay(stored), ReplayOne(m));
    ScanReplayOne(m);
  }

  /** A replayed conversation is well-formed exactly when each of its turns is aligned. */
  lemma {:induction false} ReplayIsShapedIff(stored: seq<Stored>)
    requires forall m :: m in stored ==> m.role != Tool
    ensures Shaped(Replay(stored)) <==> forall m :: m in stored ==> Aligned(m)
  {
    if stored == [] {
    } else {
      var init, m := stored[..|stored| - 1], stored[|stored| - 1];
      assert forall x :: x in stored <==> x in init || x == m;
      ReplayIsShapedIff(init);
      ScanConcat(Some([]), Replay(init), ReplayOne(m));
      var p := Scan(Some([]), Replay(init));
      if p == Some([]) { ScanReplayOne(m); } else { ScanBroken(p, m); }
    }
  }

  // ---- what replay loses ----

  /** A message without preserved blocks sends no thinking and nothing of an unknown kind. */
  ghost predicate OnlyTextAndTools(w: Wire) {
    w.content.Blocks? ==> forall b :: b in w.content.blocks ==> !b.ThinkingBlock? && !b.BareBlock?
  }

  lemma {:induction false} CallsAreUses(calls: seq<ToolCall>)
    ensures forall b :: b in EncodeCalls(calls) ==> b.UseBlock?
  {
    if calls == [] {
    } else {
      CallsAreUses(calls[..|calls| - 1]);
    }
  }

  lemma AddOnlyTextAndTools(wires: seq<Wire>, m: Message)
    requires (forall w :: w in wires ==> OnlyTextAndTools(w)) && m.blocks == []
    ensures forall w :: w in Add(wires, m) ==> OnlyTextAndTools(w)
  {
    CallsAreUses(m.toolCalls);
    if wires != [] { assert OnlyTextAndTools(wires[|wires| - 1]); }
  }

  lemma {:induction false} NoBlocksNoThinking(msgs: seq<Message>)
    requires forall m :: m in msgs ==> m.blocks == []
    ensures forall w :: w in ToAnthropic(msgs) ==> OnlyTextAndTools(w)
  {
    if msgs == [] {
    } else {
      NoBlocksNoThinking(msgs[..|msgs| - 1]);
      AddOnlyTextAndTools(ToAnthropic(msgs[..|msgs| - 1]), msgs[|msgs| - 1]);
    }
  }

  lemma {:induction false} ToolMessagesHaveNoBlocks(results: seq<ToolResult>)
    ensures forall m :: m in ToolMessages(results) ==> m.blocks == []
  {
    if results == [] {
    } else {
      ToolMessagesHaveNoBlocks(results[..|results| - 1]);
    }
  }

  lemma {:induction false} ReplayHasNoBlocks(stored: seq<Stored>)
    ensures forall m :: m in Replay(stored) ==> m.blocks == []
  {
    if stored == [] {
    } else {
      ReplayHasNoBlocks(stored[..|stored| - 1]);
      ToolMessagesHaveNoBlocks(stored[|stored| - 1].results);
    }
  }

  /**
    Preserved blocks do not survive persistence: whatever the stored turns were, a replayed
    conversation goes back without any thinking block.
   */
  lemma ReplayLosesThinking(stored: seq<Stored>)
    ensures forall m :: m in Replay(stored) ==> m.blocks == []
    ensures forall w :: w in ToAnthropic(Replay(stored)) ==> OnlyTextAndTools(w)
  {
    ReplayHasNoBlocks(stored);
    NoBlocksNoThinking(Replay(stored));
  }
}

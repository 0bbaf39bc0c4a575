/**
  The agent: model calls and tool calls in turn, at most eight rounds. The model and the tools are
  given as functions of everything they may look at.
 */
module AgentLoop {
  import opened Messages
  import opened Options
  import T = Transcript
  import S = ToolStream
  import U = Utf8

  const MAX_ITERATIONS: nat := 8
  const MAX_WIDGETS: nat := 5
  const ITERATION_BREAK := "\n\n[[ITERATION_BREAK]]\n\n"

  // ---- one streamed reply ----

  datatype StreamEvent = TextEvent(text: string) | CallEvent(call: ToolCall) | ErrorEvent | DoneEvent(blocks: seq<ContentBlock>)

  /** Text and calls in order, the blocks of the last done event; None when any error event occurs. */
  function ReadStream(events: seq<StreamEvent>): Option<T.Reply> {
    if events == [] then Some(T.Reply("", [], []))
    else
      var before := ReadStream(events[..|events| - 1]);
      if before.None? then None else ReadEvent(before.value, events[|events| - 1])
  }

  function ReadEvent(r: T.Reply, e: StreamEvent): Option<T.Reply> {
    match e
    case TextEvent(text) => Some(r.(text := r.text + text))
    case CallEvent(call) => Some(r.(calls := r.calls + [call]))
    case ErrorEvent => None
    case DoneEvent(blocks) => Some(r.(blocks := blocks))
  }

  lemma ReadAppend(events: seq<StreamEvent>, e: StreamEvent)
    ensures ReadStream(events + [e]) == if ReadStream(events).None? then None else ReadEvent(ReadStream(events).value, e)
  {
    assert (events + [e])[..|events|] == events;
  }

  method RunOneIteration(events: seq<StreamEvent>) returns (reply: Option<T.Reply>)
    ensures reply == ReadStream(events)
  {
    var text, calls: seq<ToolCall>, blocks: seq<ContentBlock> := "", [], [];
    for i := 0 to |events|
      invariant ReadStream(events[..i]) == Some(T.Reply(text, calls, blocks))
    {
      assert events[..i + 1][..i] == events[..i];
      match events[i]
      case TextEvent(delta) => text := text + delta;
      case CallEvent(call) => calls := calls + [call];
      case ErrorEvent =>
        ErrorIsFinal(events, i + 1);
        return None;
      case DoneEvent(bs) => blocks := bs;
    }
    assert events[..|events|] == events;
    reply := Some(T.Reply(text, calls, blocks));
  }

  lemma {:induction false} ErrorIsFinal(events: seq<StreamEvent>, n: nat)
    requires n <= |events| && ReadStream(events[..n]) == None
    ensures ReadStream(events) == None
    decreases |events|
  {
    if n == |events| {
      assert events[..n] == events;
    } else {
      assert events[..|events| - 1][..n] == events[..n];
      ErrorIsFinal(events[..|events| - 1], n);
    }
  }

  function CallEvents(calls: seq<ToolCall>): seq<StreamEvent> {
    if calls == [] then [] else CallEvents(calls[..|calls| - 1]) + [CallEvent(calls[|calls| - 1])]
  }

  /** The stream that the Anthropic client makes of a blocking reply. */
  function AnthropicStream(r: T.Reply): seq<StreamEvent> {
    (if r.text != "" then [TextEvent(r.text)] else []) + CallEvents(r.calls) + [DoneEvent(r.blocks)]
  }

  lemma ReadOneCall(before: seq<StreamEvent>, c: ToolCall)
    requires ReadStream(before).Some?
    ensures var r := ReadStream(before).value;
            ReadStream(before + [CallEvent(c)]) == Some(T.Reply(r.text, r.calls + [c], r.blocks))
  {
    ReadAppend(before, CallEvent(c));
  }

  lemma AppendLast<X>(a: seq<X>, b: seq<X>, x: X)
    ensures a + (b + [x]) == a + b + [x]
  {}

  lemma {:induction false} ReadCalls(head: seq<StreamEvent>, calls: seq<ToolCall>)
    requires ReadStream(head).Some? && ReadStream(head).value.calls == []
    ensures ReadStream(head + CallEvents(calls)) == Some(ReadStream(head).value.(calls := calls))
  {
    if calls == [] {
      assert head + CallEvents(calls) == head;
    } else {
      var init, c := calls[..|calls| - 1], calls[|calls| - 1];
      ReadCalls(head, init);
      ReadOneCall(head + CallEvents(init), c);
      AppendLast(head, CallEvents(init), CallEvent(c));
      assert init + [c] == calls;
    }
  }

  /** A blocking reply passes through the synthesized stream unchanged. */
  lemma AnthropicReplySurvives(r: T.Reply)
    ensures ReadStream(AnthropicStream(r)) == Some(r)
  {
    var head := if r.text != "" then [TextEvent(r.text)] else [];
    if r.text != "" { assert head[..0] == [] && "" + r.text == r.text; }
    assert ReadStream(head) == Some(T.Reply(r.text, [], []));
    ReadCalls(head, r.calls);
    var all := AnthropicStream(r);
    assert all[..|all| - 1] == head + CallEvents(r.calls);
  }

  /** A string of the program is its bytes. */
  function Chars(bytes: seq<U.Byte>): string {
    seq(|bytes|, i requires 0 <= i < |bytes| => bytes[i] as char)
  }

  /** What the reader of the OpenAI stream puts on the channel. */
  function OpenAIEvent(c: S.Chunk): StreamEvent {
    match c
    case TextDelta(text) => TextEvent(Chars(text))
    case ToolCallDone(call) => CallEvent(call)
    case Done => DoneEvent([])
    case StreamError => ErrorEvent
  }

  function OpenAIStream(chunks: seq<S.Chunk>): seq<StreamEvent> {
    seq(|chunks|, i requires 0 <= i < |chunks| => OpenAIEvent(chunks[i]))
  }

  lemma CharsAppend(a: seq<U.Byte>, b: seq<U.Byte>)
    ensures Chars(a + b) == Chars(a) + Chars(b)
  {}

  lemma {:induction false} ReadChunks(chunks: seq<S.Chunk>)
    requires S.StreamError !in chunks
    ensures ReadStream(OpenAIStream(chunks)) == Some(T.Reply(Chars(S.TextOf(chunks)), S.CallsOf(chunks), []))
  {
    if chunks == [] {
      assert OpenAIStream(chunks) == [] && Chars([]) == "";
    } else {
      var init, c := chunks[..|chunks| - 1], chunks[|chunks| - 1];
      ReadChunks(init);
      assert OpenAIStream(chunks)[..|chunks| - 1] == OpenAIStream(init);
      assert OpenAIStream(chunks)[|chunks| - 1] == OpenAIEvent(c);
      match c
      case TextDelta(text) =>
        CharsAppend(S.TextOf(init), text);
        assert S.CallsOf(chunks) == S.CallsOf(init);
      case ToolCallDone(call) => assert S.TextOf(chunks) == S.TextOf(init);
      case Done => assert S.TextOf(chunks) == S.TextOf(init) && S.CallsOf(chunks) == S.CallsOf(init);
      case StreamError =>
    }
  }

  /**
    An OpenAI stream that ends in done is read as its whole content, one call per index of each batch,
    and no blocks; one whose reading fails is no reply.
   */
  lemma OpenAIReplyIsComplete(lines: seq<S.Line>, scanFails: bool)
    ensures var reply, live := ReadStream(OpenAIStream(S.Output(lines, scanFails))), S.Live(lines);
            reply == if scanFails && S.DoneMarker !in lines then None
                     else Some(T.Reply(Chars(S.Contents(live)), S.CallsOfAll(S.AllBatches(live)), []))
  {
    var out := S.Output(lines, scanFails);
    if scanFails && S.DoneMarker !in lines {
      var events := OpenAIStream(out);
      assert events[|events| - 1] == ErrorEvent;
    } else {
      S.StreamIsComplete(lines, scanFails);
      ReadChunks(out);
    }
  }

  // ---- rounds ----

  type Widget = string

  datatype ToolOutcome = Returned(content: string, widgets: seq<Widget>) | Raised(error: string, widgets: seq<Widget>)

  type Model = (nat, seq<Message>) -> seq<StreamEvent>

  /** A tool sees the results of the run so far. */
  type Tools = (seq<ToolResult>, ToolCall) -> ToolOutcome

  datatype State = State(messages: seq<Message>, calls: seq<ToolCall>, results: seq<ToolResult>,
                         widgets: seq<Widget>, texts: seq<string>)

  datatype AgentResult = AgentResult(text: string, calls: seq<ToolCall>, results: seq<ToolResult>, widgets: seq<Widget>)

  datatype Outcome = Finished(result: AgentResult) | Cancelled | ModelFailed | Exhausted(partial: AgentResult)

  function Take<X>(s: seq<X>, n: nat): seq<X> { if |s| <= n then s else s[..n] }

  function ContentOf(o: ToolOutcome): string { if o.Returned? then o.content else "Error: " + o.error }

  function Execute(s: State, call: ToolCall, tools: Tools): State {
    var o := tools(s.results, call);
    State(s.messages + [ToolMessage(call.id, ContentOf(o))], s.calls + [call],
          s.results + [ToolResult(call.id, ContentOf(o))], Take(s.widgets + o.widgets, MAX_WIDGETS), s.texts)
  }

  function ExecuteAll(s: State, calls: seq<ToolCall>, tools: Tools): State {
    if calls == [] then s else Execute(ExecuteAll(s, calls[..|calls| - 1], tools), calls[|calls| - 1], tools)
  }

  predicate IsSpace(c: char) { c == ' ' || '\t' <= c <= '\r' }

  function TrimLeft(s: string): string { if s != "" && IsSpace(s[0]) then TrimLeft(s[1..]) else s }

  function TrimRight(s: string): string { if s != "" && IsSpace(s[|s| - 1]) then TrimRight(s[..|s| - 1]) else s }

  function TrimSpace(s: string): string { TrimRight(TrimLeft(s)) }

  function AddText(texts: seq<string>, text: string): seq<string> {
    if TrimSpace(text) != "" then texts + [TrimSpace(text)] else texts
  }

  function Join(texts: seq<string>): string {
    if texts == [] then "" else if |texts| == 1 then texts[0]
    else Join(texts[..|texts| - 1]) + ITERATION_BREAK + texts[|texts| - 1]
  }

  function Start(prompt: string, history: seq<Message>): State {
    State([PlainMessage(System, prompt)] + history, [], [], [], [])
  }

  /** A round whose reply has calls: the assistant turn, then every call in order. */
  function Round(s: State, r: T.Reply, tools: Tools): State {
    ExecuteAll(s.(messages := s.messages + [Message(Assistant, r.text, r.calls, "", r.blocks)], texts := AddText(s.texts, r.text)),
               r.calls, tools)
  }

  /** Reply to the n-th request, counting from 0. */
  function ReplyTo(s: State, n: nat, model: Model): Option<T.Reply> { ReadStream(model(n, s.messages)) }

  /** The state after n full rounds, as long as every reply asks for tools. */
  function After(s: State, n: nat, model: Model, tools: Tools): State {
    if n == 0 then s
    else
      var before := After(s, n - 1, model, tools);
      var r := ReplyTo(before, n - 1, model);
      if r.Some? then Round(before, r.value, tools) else before
  }

  predicate AsksForTools(s: State, n: nat, model: Model) {
    ReplyTo(s, n, model).Some? && ReplyTo(s, n, model).value.calls != []
  }

  function ResultOf(s: State): AgentResult { AgentResult(Join(s.texts), s.calls, s.results, s.widgets) }

  method EmitWidgets(widgets: seq<Widget>, emitted: seq<Widget>) returns (kept: seq<Widget>)
    requires |widgets| <= MAX_WIDGETS
    ensures kept == Take(widgets + emitted, MAX_WIDGETS)
  {
    kept := widgets;
    for i := 0 to |emitted|
      invariant kept == Take(widgets + emitted[..i], MAX_WIDGETS)
    {
      assert widgets + emitted[..i + 1] == widgets + emitted[..i] + [emitted[i]];
      if |kept| < MAX_WIDGETS {
        kept := kept + [emitted[i]];
      }
    }
    assert emitted[..|emitted|] == emitted;
  }

  method JoinIterationTexts(parts: seq<string>) returns (text: string)
    ensures text == Join(parts)
  {
    if |parts| == 0 {
      return "";
    }
    text := parts[0];
    for i := 1 to |parts|
      invariant text == Join(parts[..i])
    {
      assert parts[..i + 1][..i] == parts[..i];
      text := text + ITERATION_BREAK + parts[i];
    }
    assert parts[..|parts|] == parts;
  }

  /** Runs the calls of one reply in order; None when the request is cancelled in between. */
  method ExecuteCalls(s: State, calls: seq<ToolCall>, tools: Tools) returns (after: Option<State>)
    requires |s.widgets| <= MAX_WIDGETS
    ensures after.Some? ==> after.value == ExecuteAll(s, calls, tools) && |after.value.widgets| <= MAX_WIDGETS
  {
    var messages, executed, results, widgets := s.messages, s.calls, s.results, s.widgets;
    for i := 0 to |calls|
      invariant State(messages, executed, results, widgets, s.texts) == ExecuteAll(s, calls[..i], tools)
      invariant |widgets| <= MAX_WIDGETS
    {
      assert calls[..i + 1][..i] == calls[..i];
      var cancelled: bool := *;
      if cancelled {
        return None;
      }
      var call := calls[i];
      executed := executed + [call];
      var outcome := tools(results, call);
      widgets := EmitWidgets(widgets, outcome.widgets);
      var content := if outcome.Returned? then outcome.content else "Error: " + outcome.error;
      results := results + [ToolResult(call.id, content)];
      messages := messages + [ToolMessage(call.id, content)];
    }
    assert calls[..|calls|] == calls;
    after := Some(State(messages, executed, results, widgets, s.texts));
  }

  /** The states of a run, round by round. */
  function States(s0: State, model: Model, tools: Tools): nat -> State { (n: nat) => After(s0, n, model, tools) }

  /** The k-th request is the state after k rounds, and every reply but the last asked for tools. */
  ghost predicate SentOk(requests: seq<seq<Message>>, states: nat -> State, model: Model) {
    && (forall k: nat :: k < |requests| ==> requests[k] == states(k).messages)
    && (forall k: nat :: k + 1 < |requests| ==> AsksForTools(states(k), k, model))
  }

  /** What the run returns when request n, sent in state s, is the last. */
  ghost predicate StopOk(outcome: Outcome, s: State, n: nat, model: Model) {
    match outcome
    case Finished(result) =>
      var r := ReplyTo(s, n, model);
      r.Some? && r.value.calls == [] && result == ResultOf(s.(texts := AddText(s.texts, r.value.text)))
    case Cancelled => true
    case ModelFailed => ReplyTo(s, n, model).None?
    case Exhausted(_) => false
  }

  /** What the run returns after n requests. */
  ghost predicate OutcomeOk(outcome: Outcome, n: nat, states: nat -> State, model: Model) {
    match outcome
    case Cancelled => true
    case Exhausted(partial) =>
      n == MAX_ITERATIONS && partial == ResultOf(states(n)) && AsksForTools(states(n - 1), n - 1, model)
    case _ => n > 0 && StopOk(outcome, states(n - 1), n - 1, model)
  }

  lemma SentGrows(requests: seq<seq<Message>>, next: seq<Message>, states: nat -> State, model: Model)
    requires SentOk(requests, states, model) && next == states(|requests|).messages
    requires |requests| > 0 ==> AsksForTools(states(|requests| - 1), |requests| - 1, model)
    ensures SentOk(requests + [next], states, model)
  {
    var all := requests + [next];
    forall k: nat | k < |all| ensures all[k] == states(k).messages {
      if k < |requests| { assert all[k] == requests[k]; }
    }
  }

  datatype Progress = Continue(state: State) | Stop(outcome: Outcome)

  /** One round from request to tool results. */
  method Iterate(s: State, n: nat, model: Model, tools: Tools) returns (p: Progress)
    requires |s.widgets| <= MAX_WIDGETS
    ensures p.Continue? ==> (
              AsksForTools(s, n, model) && p.state == Round(s, ReplyTo(s, n, model).value, tools)
              && |p.state.widgets| <= MAX_WIDGETS)
    ensures p.Stop? ==> StopOk(p.outcome, s, n, model)
  {
    var reply := RunOneIteration(model(n, s.messages));
    var cancelled: bool := *;
    if cancelled {
      return Stop(Cancelled);
    }
    if reply.None? {
      return Stop(ModelFailed);
    }
    var r := reply.value;
    var texts := s.texts;
    if TrimSpace(r.text) != "" {
      texts := texts + [TrimSpace(r.text)];
    }
    if r.calls == [] {
      var text := JoinIterationTexts(texts);
      return Stop(Finished(AgentResult(text, s.calls, s.results, s.widgets)));
    }
    var turn := Message(Assistant, r.text, r.calls, "", r.blocks);
    var after := ExecuteCalls(s.(messages := s.messages + [turn], texts := texts), r.calls, tools);
    p := if after.None? then Stop(Cancelled) else Continue(after.value);
  }

  /** States follow each other by rounds for as long as the replies ask for tools. */
  ghost predicate Successive(states: nat -> State, model: Model, tools: Tools) {
    forall n: nat :: AsksForTools(states(n), n, model)
                     ==> states(n + 1) == Round(states(n), ReplyTo(states(n), n, model).value, tools)
  }

  lemma StatesAreSuccessive(s0: State, model: Model, tools: Tools)
    ensures Successive(States(s0, model, tools), model, tools)
  {}

  method RunRounds(s0: State, model: Model, tools: Tools, ghost states: nat -> State)
    returns (outcome: Outcome, requests: seq<seq<Message>>)
    requires s0 == states(0) && |s0.widgets| <= MAX_WIDGETS && Successive(states, model, tools)
    ensures |requests| <= MAX_ITERATIONS && SentOk(requests, states, model)
    ensures OutcomeOk(outcome, |requests|, states, model)
  {
    var s := s0;
    requests := [];
    for i := 0 to MAX_ITERATIONS
      invariant s == states(i) && |s.widgets| <= MAX_WIDGETS && |requests| == i
      invariant SentOk(requests, states, model)
      invariant i > 0 ==> AsksForTools(states(i - 1), i - 1, model)
    {
      var cancelled: bool := *;
      if cancelled {
        return Cancelled, requests;
      }
      SentGrows(requests, s.messages, states, model);
      requests := requests + [s.messages];
      var p := Iterate(s, i, model, tools);
      if p.Stop? {
        return p.outcome, requests;
      }
      s := p.state;
    }
    var text := JoinIterationTexts(s.texts);
    outcome := Exhausted(AgentResult(text, s.calls, s.results, s.widgets));
  }

  /** What is sent and what is returned, for any point at which the request may be cancelled. */
  method RunStream(prompt: string, history: seq<Message>, model: Model, tools: Tools)
    returns (outcome: Outcome, requests: seq<seq<Message>>)
    ensures |requests| <= MAX_ITERATIONS
    ensures requests != [] ==> requests[0] == [Message(System, prompt, [], "", [])] + history
    ensures SentOk(requests, States(Start(prompt, history), model, tools), model)
    ensures OutcomeOk(outcome, |requests|, States(Start(prompt, history), model, tools), model)
  {
    var s := State([PlainMessage(System, prompt)] + history, [], [], [], []);
    StatesAreSuccessive(s, model, tools);
    outcome, requests := RunRounds(s, model, tools, States(s, model, tools));
  }

  // ---- what every run keeps ----

  /** Replies whose preserved blocks name their calls: any Anthropic reply, and any reply without blocks. */
  ghost predicate FaithfulModel(model: Model) {
    forall n: nat, msgs: seq<Message> :: Faithful(ReadStream(model(n, msgs)))
  }

  ghost predicate Faithful(r: Option<T.Reply>) {
    r.Some? ==> r.value.blocks == [] || T.UseIds(r.value.blocks) == CallIds(r.value.calls)
  }

  lemma DecodedRepliesAreFaithful(blocks: seq<ContentBlock>)
    ensures Faithful(ReadStream(AnthropicStream(T.Reply(T.TextOf(blocks), T.CallsOf(blocks), blocks))))
  {
    AnthropicReplySurvives(T.Reply(T.TextOf(blocks), T.CallsOf(blocks), blocks));
    T.DecodedIdsAgree(blocks);
  }

  lemma StreamedRepliesAreFaithful(lines: seq<S.Line>, scanFails: bool)
    ensures Faithful(ReadStream(OpenAIStream(S.Output(lines, scanFails))))
  {
    OpenAIReplyIsComplete(lines, scanFails);
  }

  /** A call that is next to be answered is answered by its execution. */
  lemma ExecuteScans(s: State, call: ToolCall, ids: seq<string>, tools: Tools)
    requires T.Scan(Some([]), s.messages) == Some(ids) && ids != [] && ids[0] == call.id
    ensures T.Scan(Some([]), Execute(s, call, tools).messages) == Some(ids[1..])
  {
    T.ScanOne(Some([]), s.messages, ToolMessage(call.id, ContentOf(tools(s.results, call))));
  }

  /** Calls executed one after another answer their own ids in order. */
  lemma {:induction false} ExecuteAllScans(s: State, calls: seq<ToolCall>, n: nat, tools: Tools)
    requires n <= |calls| && T.Scan(Some([]), s.messages) == Some(CallIds(calls))
    ensures T.Scan(Some([]), ExecuteAll(s, calls[..n], tools).messages) == Some(CallIds(calls)[n..])
  {
    if n == 0 {
      assert calls[..0] == [];
    } else {
      ExecuteAllScans(s, calls, n - 1, tools);
      assert calls[..n][..n - 1] == calls[..n - 1];
      ExecuteScans(ExecuteAll(s, calls[..n - 1], tools), calls[n - 1], CallIds(calls)[n - 1..], tools);
      assert CallIds(calls)[n - 1..][1..] == CallIds(calls)[n..];
    }
  }

  lemma RoundIsShaped(s: State, r: T.Reply, tools: Tools)
    requires T.Shaped(s.messages) && Faithful(Some(r))
    ensures T.Shaped(Round(s, r, tools).messages)
  {
    var turn := Message(Assistant, r.text, r.calls, "", r.blocks);
    T.ScanOne(Some([]), s.messages, turn);
    ExecuteAllCloses(s.(messages := s.messages + [turn], texts := AddText(s.texts, r.text)), r.calls, tools);
  }

  lemma ExecuteAllCloses(s: State, calls: seq<ToolCall>, tools: Tools)
    requires T.Scan(Some([]), s.messages) == Some(CallIds(calls))
    ensures T.Shaped(ExecuteAll(s, calls, tools).messages)
  {
    ExecuteAllScans(s, calls, |calls|, tools);
    assert calls[..|calls|] == calls;
    assert CallIds(calls)[|calls|..] == [];
  }

  lemma StartIsShaped(prompt: string, history: seq<Message>)
    requires T.Shaped(history)
    ensures T.Shaped(Start(prompt, history).messages)
  {
    var head := [PlainMessage(System, prompt)];
    assert head[..0] == [];
    T.ScanConcat(Some([]), head, history);
  }

  /** From a well-formed history every request the agent can send is well-formed, in both provider forms. */
  lemma {:induction false} RequestsAreShaped(prompt: string, history: seq<Message>, n: nat, model: Model, tools: Tools)
    requires T.Shaped(history) && FaithfulModel(model)
    ensures var msgs := After(Start(prompt, history), n, model, tools).messages;
            T.Shaped(msgs) && T.Paired(T.ToAnthropic(msgs)) && T.Merged(T.ToAnthropic(msgs))
  {
    var s := After(Start(prompt, history), n, model, tools);
    if n == 0 {
      StartIsShaped(prompt, history);
    } else {
      RequestsAreShaped(prompt, history, n - 1, model, tools);
      var before := After(Start(prompt, history), n - 1, model, tools);
      var r := ReplyTo(before, n - 1, model);
      if r.Some? {
        assert Faithful(ReadStream(model(n - 1, before.messages)));
        RoundIsShaped(before, r.value, tools);
      }
    }
    T.ShapedIsPaired(s.messages);
    T.MergeLosesNothing(s.messages);
  }

  /** Executed calls and results stay aligned one to one, and widgets within their cap. */
  ghost predicate InStep(s: State) {
    CallIds(s.calls) == T.ResultIds(s.results) && |s.widgets| <= MAX_WIDGETS
  }

  lemma {:induction false} ExecuteAllInStep(s: State, calls: seq<ToolCall>, tools: Tools)
    requires InStep(s)
    ensures InStep(ExecuteAll(s, calls, tools)) && ExecuteAll(s, calls, tools).calls == s.calls + calls
    ensures s.widgets <= ExecuteAll(s, calls, tools).widgets && s.messages <= ExecuteAll(s, calls, tools).messages
  {
    if calls == [] {
    } else {
      var init, c := calls[..|calls| - 1], calls[|calls| - 1];
      ExecuteAllInStep(s, init, tools);
      var before := ExecuteAll(s, init, tools);
      assert calls == init + [c];
      assert |CallIds(before.calls)| == |before.calls| && |T.ResultIds(before.results)| == |before.results|;
      assert CallIds(before.calls + [c]) == CallIds(before.calls) + [c.id];
      var content := ContentOf(tools(before.results, c));
      assert T.ResultIds(before.results + [ToolResult(c.id, content)]) == T.ResultIds(before.results) + [c.id];
    }
  }

  /** The calls executed in n rounds are those the replies asked for, and nothing sent is ever taken back. */
  lemma {:induction false} RoundsInStep(s: State, n: nat, model: Model, tools: Tools)
    requires InStep(s)
    ensures InStep(After(s, n, model, tools)) && s.messages <= After(s, n, model, tools).messages
    ensures n > 0 ==> (
              var before, r := After(s, n - 1, model, tools), ReplyTo(After(s, n - 1, model, tools), n - 1, model);
              var after := After(s, n, model, tools);
              && after.calls == before.calls + (if r.Some? then r.value.calls else [])
              && before.messages <= after.messages && before.widgets <= after.widgets)
  {
    if n == 0 {
    } else {
      RoundsInStep(s, n - 1, model, tools);
      var before := After(s, n - 1, model, tools);
      var r := ReplyTo(before, n - 1, model);
      if r.Some? {
        var turn := Message(Assistant, r.value.text, r.value.calls, "", r.value.blocks);
        ExecuteAllInStep(before.(messages := before.messages + [turn], texts := AddText(before.texts, r.value.text)),
                         r.value.calls, tools);
      }
    }
  }

  // ---- what a run has executed and said ----

  /** What the model is told about a tool's outcome. */
  predicate Reports(content: string, o: ToolOutcome) {
    match o case Returned(text, _) => content == text case Raised(error, _) => content == "Error: " + error
  }

  /** The widgets of the first n calls, each asked with the results before it. */
  function WidgetsOf(calls: seq<ToolCall>, results: seq<ToolResult>, n: nat, tools: Tools): seq<Widget>
    requires n <= |calls| && n <= |results|
  {
    if n == 0 then [] else WidgetsOf(calls, results, n - 1, tools) + tools(results[..n - 1], calls[n - 1]).widgets
  }

  /** Each call has its result, which reports what the tool made of it, and the first five widgets are kept. */
  ghost predicate Accounted(s: State, tools: Tools) {
    && |s.results| == |s.calls|
    && (forall k :: 0 <= k < |s.calls| ==>
          s.results[k].callId == s.calls[k].id && Reports(s.results[k].content, tools(s.results[..k], s.calls[k])))
    && s.widgets == Take(WidgetsOf(s.calls, s.results, |s.calls|, tools), MAX_WIDGETS)
  }

  lemma {:induction false} WidgetsOfPrefix(calls: seq<ToolCall>, results: seq<ToolResult>, c: ToolCall, r: ToolResult,
                                           n: nat, tools: Tools)
    requires n <= |calls| && n <= |results|
    ensures WidgetsOf(calls + [c], results + [r], n, tools) == WidgetsOf(calls, results, n, tools)
  {
    if n > 0 {
      WidgetsOfPrefix(calls, results, c, r, n - 1, tools);
      assert (results + [r])[..n - 1] == results[..n - 1];
    }
  }

  lemma TakeTwice<X>(a: seq<X>, b: seq<X>, n: nat)
    ensures Take(Take(a, n) + b, n) == Take(a + b, n)
  {}

  lemma ExecuteAccounts(s: State, call: ToolCall, tools: Tools)
    requires Accounted(s, tools)
    ensures Accounted(Execute(s, call, tools), tools)
  {
    var t, o, n := Execute(s, call, tools), tools(s.results, call), |s.calls|;
    assert t.results[..n] == s.results;
    WidgetsOfPrefix(s.calls, s.results, call, t.results[n], n, tools);
    TakeTwice(WidgetsOf(s.calls, s.results, n, tools), o.widgets, MAX_WIDGETS);
    forall k | 0 <= k < n + 1
      ensures t.results[k].callId == t.calls[k].id && Reports(t.results[k].content, tools(t.results[..k], t.calls[k]))
    {
      assert k < n ==> t.results[..k] == s.results[..k];
    }
  }

  lemma {:induction false} ExecuteAllAccounts(s: State, calls: seq<ToolCall>, tools: Tools)
    requires Accounted(s, tools)
    ensures Accounted(ExecuteAll(s, calls, tools), tools)
  {
    if calls == [] {
    } else {
      ExecuteAllAccounts(s, calls[..|calls| - 1], tools);
      ExecuteAccounts(ExecuteAll(s, calls[..|calls| - 1], tools), calls[|calls| - 1], tools);
    }
  }

  /** The states of a run all of whose first n replies asked for tools. */
  ghost predicate Rounds(states: nat -> State, n: nat, model: Model, tools: Tools) {
    Successive(states, model, tools) && forall k: nat :: k < n ==> AsksForTools(states(k), k, model)
  }

  lemma {:induction false} RoundAccounts(s: State, r: T.Reply, tools: Tools)
    requires Accounted(s, tools)
    ensures Accounted(Round(s, r, tools), tools)
  {
    var turn := Message(Assistant, r.text, r.calls, "", r.blocks);
    ExecuteAllAccounts(s.(messages := s.messages + [turn], texts := AddText(s.texts, r.text)), r.calls, tools);
  }

  /** After any number of rounds every call is accounted for. */
  lemma {:induction false} RunIsAccounted(states: nat -> State, n: nat, model: Model, tools: Tools)
    requires Rounds(states, n, model, tools) && Accounted(states(0), tools)
    ensures Accounted(states(n), tools)
  {
    if n > 0 {
      RunIsAccounted(states, n - 1, model, tools);
      assert AsksForTools(states(n - 1), n - 1, model);
      RoundAccounts(states(n - 1), ReplyTo(states(n - 1), n - 1, model).value, tools);
    }
  }

  /** One round sends on the reply as it was and, for each of its calls in order, the result that was recorded. */
  ghost predicate RoundSends(s: State, r: T.Reply, t: State) {
    var n, m := |s.messages|, |s.results|;
    && |t.messages| == n + 1 + |r.calls| && s.messages <= t.messages
    && t.messages[n] == Message(Assistant, r.text, r.calls, "", r.blocks)
    && |t.results| == m + |r.calls| && s.results <= t.results
    && forall k :: 0 <= k < |r.calls| ==> t.messages[n + 1 + k] == Message(Tool, t.results[m + k].content, [], r.calls[k].id, [])
  }

  ghost predicate ExecutedAll(s: State, calls: seq<ToolCall>, t: State) {
    var n, m := |s.messages|, |s.results|;
    && |t.messages| == n + |calls| && s.messages <= t.messages && |t.results| == m + |calls| && s.results <= t.results
    && forall k :: 0 <= k < |calls| ==> t.messages[n + k] == Message(Tool, t.results[m + k].content, [], calls[k].id, [])
  }

  lemma {:induction false} ExecuteAllSends(s: State, calls: seq<ToolCall>, tools: Tools)
    ensures ExecutedAll(s, calls, ExecuteAll(s, calls, tools))
  {
    if calls == [] {
    } else {
      ExecuteAllSends(s, calls[..|calls| - 1], tools);
    }
  }

  lemma RoundTells(s: State, r: T.Reply, tools: Tools)
    ensures RoundSends(s, r, Round(s, r, tools))
  {
    var turn := Message(Assistant, r.text, r.calls, "", r.blocks);
    ExecuteAllSends(s.(messages := s.messages + [turn], texts := AddText(s.texts, r.text)), r.calls, tools);
  }

  /** The prompt and the history stand first in every request, and each round adds what it received and executed. */
  lemma {:induction false} RequestsTell(prompt: string, history: seq<Message>, n: nat, model: Model, tools: Tools)
    ensures var s0 := Start(prompt, history);
            && s0.messages == [Message(System, prompt, [], "", [])] + history
            && s0.messages <= After(s0, n, model, tools).messages
            && (n > 0 && ReplyTo(After(s0, n - 1, model, tools), n - 1, model).Some? ==>
                  var before := After(s0, n - 1, model, tools);
                  RoundSends(before, ReplyTo(before, n - 1, model).value, After(s0, n, model, tools)))
  {
    if n > 0 {
      RequestsTell(prompt, history, n - 1, model, tools);
      var before := After(Start(prompt, history), n - 1, model, tools);
      var r := ReplyTo(before, n - 1, model);
      if r.Some? { RoundTells(before, r.value, tools); }
    }
  }

  predicate AllSpace(s: string) { forall i :: 0 <= i < |s| ==> IsSpace(s[i]) }

  lemma {:induction false} TrimLeftMeans(s: string) returns (before: string)
    ensures s == before + TrimLeft(s) && AllSpace(before)
    ensures TrimLeft(s) != "" ==> !IsSpace(TrimLeft(s)[0])
  {
    before := "";
    if s != "" && IsSpace(s[0]) {
      before := TrimLeftMeans(s[1..]);
      before := [s[0]] + before;
    }
  }

  lemma {:induction false} TrimRightMeans(s: string) returns (behind: string)
    ensures s == TrimRight(s) + behind && AllSpace(behind)
    ensures TrimRight(s) != "" ==> !IsSpace(TrimRight(s)[|TrimRight(s)| - 1])
  {
    behind := "";
    if s != "" && IsSpace(s[|s| - 1]) {
      behind := TrimRightMeans(s[..|s| - 1]);
      behind := behind + [s[|s| - 1]];
    }
  }

  /** Trimming takes white space off both ends, all of it and nothing else. */
  lemma TrimSpaceMeans(s: string) returns (before: string, behind: string)
    ensures s == before + TrimSpace(s) + behind && AllSpace(before) && AllSpace(behind)
    ensures var t := TrimSpace(s); t != "" ==> !IsSpace(t[0]) && !IsSpace(t[|t| - 1])
  {
    before := TrimLeftMeans(s);
    behind := TrimRightMeans(TrimLeft(s));
  }

  /** The texts of the first n replies as they came. */
  function RawTexts(states: nat -> State, n: nat, model: Model): seq<string> {
    if n == 0 then []
    else
      var r := ReplyTo(states(n - 1), n - 1, model);
      RawTexts(states, n - 1, model) + if r.Some? then [r.value.text] else []
  }

  /** The calls that the first n replies asked for. */
  function RawCalls(states: nat -> State, n: nat, model: Model): seq<ToolCall> {
    if n == 0 then []
    else
      var r := ReplyTo(states(n - 1), n - 1, model);
      RawCalls(states, n - 1, model) + if r.Some? then r.value.calls else []
  }

  /** What is left of the texts when blank ones are dropped and the others trimmed. */
  function Shown(texts: seq<string>): seq<string> {
    if texts == [] then []
    else (if AllSpace(texts[0]) then [] else [TrimSpace(texts[0])]) + Shown(texts[1..])
  }

  lemma {:induction false} ShownAppend(texts: seq<string>, text: string)
    ensures Shown(texts + [text]) == Shown(texts) + if AllSpace(text) then [] else [TrimSpace(text)]
  {
    if texts == [] {
      assert [text][1..] == [];
    } else {
      var head, last := if AllSpace(texts[0]) then [] else [TrimSpace(texts[0])], if AllSpace(text) then [] else [TrimSpace(text)];
      assert (texts + [text])[1..] == texts[1..] + [text];
      ShownAppend(texts[1..], text);
      assert head + (Shown(texts[1..]) + last) == head + Shown(texts[1..]) + last;
    }
  }

  lemma TrimIsBlankIff(s: string)
    ensures TrimSpace(s) == "" <==> AllSpace(s)
  {
    var before, behind := TrimSpaceMeans(s);
    var t := TrimSpace(s);
    if t != "" { assert s[|before|] == t[0]; }
  }

  lemma AddTextShows(texts: seq<string>, raw: seq<string>, text: string)
    requires texts == Shown(raw)
    ensures AddText(texts, text) == Shown(raw + [text])
  {
    ShownAppend(raw, text);
    TrimIsBlankIff(text);
    assert texts + [] == texts;
  }

  lemma {:induction false} ExecuteAllKeepsTexts(s: State, calls: seq<ToolCall>, tools: Tools)
    ensures ExecuteAll(s, calls, tools).texts == s.texts && ExecuteAll(s, calls, tools).calls == s.calls + calls
  {
    if calls == [] {
    } else {
      ExecuteAllKeepsTexts(s, calls[..|calls| - 1], tools);
      assert calls == calls[..|calls| - 1] + [calls[|calls| - 1]];
    }
  }

  lemma {:induction false} RoundAdds(s: State, r: T.Reply, tools: Tools)
    ensures Round(s, r, tools).texts == AddText(s.texts, r.text) && Round(s, r, tools).calls == s.calls + r.calls
  {
    var turn := Message(Assistant, r.text, r.calls, "", r.blocks);
    ExecuteAllKeepsTexts(s.(messages := s.messages + [turn], texts := AddText(s.texts, r.text)), r.calls, tools);
  }

  lemma {:induction false} TextsAndCalls(states: nat -> State, n: nat, model: Model, tools: Tools)
    requires Rounds(states, n, model, tools) && states(0).texts == [] && states(0).calls == []
    ensures states(n).texts == Shown(RawTexts(states, n, model)) && states(n).calls == RawCalls(states, n, model)
  {
    if n > 0 {
      TextsAndCalls(states, n - 1, model, tools);
      assert AsksForTools(states(n - 1), n - 1, model);
      var r := ReplyTo(states(n - 1), n - 1, model).value;
      RoundAdds(states(n - 1), r, tools);
      AddTextShows(states(n - 1).texts, RawTexts(states, n - 1, model), r.text);
    }
  }

  lemma Regroup(a: string, b: string, c: string)
    ensures (a + ITERATION_BREAK + b) + ITERATION_BREAK + c == a + ITERATION_BREAK + (b + ITERATION_BREAK + c)
  {}

  lemma {:induction false} JoinStep(texts: seq<string>, text: string)
    requires texts != []
    ensures Join(texts + [text]) == Join(texts) + ITERATION_BREAK + text
  {
    assert (texts + [text])[..|texts|] == texts;
  }

  /** Joining two non-empty lists puts one break between them. */
  lemma {:induction false} JoinConcat(a: seq<string>, b: seq<string>)
    requires a != [] && b != []
    ensures |a| == 1 ==> Join(a) == a[0]
    ensures Join(a + b) == Join(a) + ITERATION_BREAK + Join(b)
  {
    var init, last := b[..|b| - 1], b[|b| - 1];
    assert b == init + [last];
    if init == [] {
      JoinStep(a, last);
    } else {
      JoinConcat(a, init);
      JoinStep(init, last);
      JoinStep(a + init, last);
      assert a + b == (a + init) + [last];
      Regroup(Join(a), Join(init), last);
    }
  }

  /** The texts of n replies, trimmed and joined without the blank ones, with the calls they asked for and their results. */
  ghost predicate Returns(r: AgentResult, states: nat -> State, n: nat, model: Model, tools: Tools) {
    && r.text == Join(Shown(RawTexts(states, n, model)))
    && r.calls == RawCalls(states, n, model)
    && Accounted(State([], r.calls, r.results, r.widgets, []), tools)
  }

  lemma {:induction false} LastReplyReturns(s: State, reply: T.Reply, r: AgentResult, texts: seq<string>, calls: seq<ToolCall>,
                                            tools: Tools)
    requires s.texts == Shown(texts) && s.calls == calls && Accounted(s, tools)
    requires reply.calls == [] && r == ResultOf(s.(texts := AddText(s.texts, reply.text)))
    ensures r.text == Join(Shown(texts + [reply.text])) && r.calls == calls + reply.calls
    ensures Accounted(State([], r.calls, r.results, r.widgets, []), tools)
  {
    AddTextShows(s.texts, texts, reply.text);
  }

  ghost predicate Fresh(s: State, tools: Tools) { s.texts == [] && s.calls == [] && Accounted(s, tools) }

  lemma {:induction false} FinishedReturns(states: nat -> State, n: nat, model: Model, tools: Tools, r: AgentResult)
    requires n > 0 && Rounds(states, n - 1, model, tools) && Fresh(states(0), tools)
    requires StopOk(Finished(r), states(n - 1), n - 1, model)
    ensures Returns(r, states, n, model, tools)
  {
    TextsAndCalls(states, n - 1, model, tools);
    RunIsAccounted(states, n - 1, model, tools);
    LastReplyReturns(states(n - 1), ReplyTo(states(n - 1), n - 1, model).value, r,
                     RawTexts(states, n - 1, model), RawCalls(states, n - 1, model), tools);
  }

  lemma {:induction false} ExhaustedReturns(states: nat -> State, n: nat, model: Model, tools: Tools)
    requires Rounds(states, n, model, tools) && Fresh(states(0), tools)
    ensures Returns(ResultOf(states(n)), states, n, model, tools)
  {
    TextsAndCalls(states, n, model, tools);
    RunIsAccounted(states, n, model, tools);
  }

  lemma {:induction false} StatesMean(requests: seq<seq<Message>>, outcome: Outcome, states: nat -> State, model: Model, tools: Tools)
    requires SentOk(requests, states, model) && OutcomeOk(outcome, |requests|, states, model)
    requires Successive(states, model, tools) && Fresh(states(0), tools)
    ensures forall k: nat :: k + 1 < |requests| ==>
              var r := ReadStream(model(k, requests[k])); r.Some? && r.value.calls != []
    ensures !outcome.Cancelled? ==> requests != []
    ensures !outcome.Cancelled? ==>
              var n, last := |requests|, ReadStream(model(|requests| - 1, requests[|requests| - 1]));
              && (outcome.ModelFailed? <==> last.None?)
              && (outcome.Finished? <==> last.Some? && last.value.calls == [])
              && (outcome.Finished? ==> Returns(outcome.result, states, n, model, tools))
              && (outcome.Exhausted? ==> n == 8 && Returns(outcome.partial, states, n, model, tools))
  {
    var n := |requests|;
    forall k: nat | k + 1 < n ensures var r := ReadStream(model(k, requests[k])); r.Some? && r.value.calls != [] {
      assert AsksForTools(states(k), k, model);
    }
    if outcome.Finished? { FinishedReturns(states, n, model, tools, outcome.result); }
    if outcome.Exhausted? {
      assert Rounds(states, n, model, tools);
      ExhaustedReturns(states, n, model, tools);
    }
  }

  /**
    What a run returns, whatever the model and the tools do: a reply without calls finishes it, a failed reply ends
    it, and after eight replies with calls it returns what it has; every reply before the last one asked for tools.
   */
  lemma {:induction false} RunMeans(prompt: string, history: seq<Message>, model: Model, tools: Tools,
                                    outcome: Outcome, requests: seq<seq<Message>>)
    requires SentOk(requests, States(Start(prompt, history), model, tools), model)
    requires OutcomeOk(outcome, |requests|, States(Start(prompt, history), model, tools), model)
    ensures forall k: nat :: k + 1 < |requests| ==>
              var r := ReadStream(model(k, requests[k])); r.Some? && r.value.calls != []
    ensures !outcome.Cancelled? ==> requests != []
    ensures !outcome.Cancelled? ==>
              var n, states := |requests|, States(Start(prompt, history), model, tools);
              var last := ReadStream(model(n - 1, requests[n - 1]));
              && (outcome.ModelFailed? <==> last.None?)
              && (outcome.Finished? <==> last.Some? && last.value.calls == [])
              && (outcome.Finished? ==> Returns(outcome.result, states, n, model, tools))
              && (outcome.Exhausted? ==> n == 8 && Returns(outcome.partial, states, n, model, tools))
  {
    StatesAreSuccessive(Start(prompt, history), model, tools);
    StatesMean(requests, outcome, States(Start(prompt, history), model, tools), model, tools);
  }

  /** The message under which a finished run is persisted. */
  function Persisted(r: AgentResult): T.Stored { T.Stored(Assistant, r.text, r.calls, r.results) }

  /**
    A conversation that grew by persisting finished runs replays to a well-formed history: whatever
    the run after n rounds returns keeps a well-formed stored history well-formed.
   */
  lemma PersistedRunReplays(stored: seq<T.Stored>, question: string, prompt: string, n: nat, model: Model, tools: Tools,
                            last: string)
    requires T.Shaped(T.Replay(stored))
    ensures var asked := stored + [T.Stored(User, question, [], [])];
            var s := After(Start(prompt, T.Replay(asked)), n, model, tools);
            var r := ResultOf(s.(texts := AddText(s.texts, last)));
            && T.Shaped(T.Replay(asked))
            && T.Shaped(T.Replay(asked + [Persisted(r)]))
  {
    var question' := T.Stored(User, question, [], []);
    var s0 := Start(prompt, T.Replay(stored + [question']));
    assert CallIds([]) == T.ResultIds([]);
    RoundsInStep(s0, n, model, tools);
    var s := After(s0, n, model, tools);
    T.ShapedReplayExtends(stored, question');
    T.ShapedReplayExtends(stored + [question'], Persisted(ResultOf(s.(texts := AddText(s.texts, last)))));
  }
}

/**
  Reading a streamed completion: tool-call fragments are collected by index and emitted whole,
  text passes through the UTF-8 buffer, and every clean end flushes both.
 */
module ToolStream {
  import opened Messages
  import opened Sequences
  import opened Utf8

  datatype Fragment = Fragment(index: int, id: string, name: string, arguments: string)

  datatype Finish = NoFinish | Stop | ToolCallsFinish

  /** One line of the event stream; Ignored is blank, not data, malformed, or without choices. */
  datatype Line = Ignored | DoneMarker | Frame(content: seq<Byte>, fragments: seq<Fragment>, finish: Finish)

  datatype Chunk = TextDelta(text: seq<Byte>) | ToolCallDone(call: ToolCall) | Done | StreamError

  // ---- what a set of fragments stands for ----

  /** Indices in order of first appearance. */
  function FirstSeen(frs: seq<Fragment>): seq<int> {
    if frs == [] then []
    else
      var init, f := FirstSeen(frs[..|frs| - 1]), frs[|frs| - 1];
      if f.index in init then init else init + [f.index]
  }

  /** The last non-empty id sent for an index. */
  function LastId(frs: seq<Fragment>, index: int): string {
    if frs == [] then ""
    else
      var f := frs[|frs| - 1];
      if f.index == index && f.id != "" then f.id else LastId(frs[..|frs| - 1], index)
  }

  function LastName(frs: seq<Fragment>, index: int): string {
    if frs == [] then ""
    else
      var f := frs[|frs| - 1];
      if f.index == index && f.name != "" then f.name else LastName(frs[..|frs| - 1], index)
  }

  /** All argument pieces of an index, in order. */
  function Arguments(frs: seq<Fragment>, index: int): string {
    if frs == [] then ""
    else
      var f := frs[|frs| - 1];
      Arguments(frs[..|frs| - 1], index) + if f.index == index then f.arguments else ""
  }

  function Assembled(frs: seq<Fragment>, index: int): ToolCall {
    ToolCall(LastId(frs, index), LastName(frs, index), Arguments(frs, index))
  }

  function Calls(frs: seq<Fragment>): seq<ToolCall> {
    var order := FirstSeen(frs);
    seq(|order|, i requires 0 <= i < |order| => Assembled(frs, order[i]))
  }

  function IndexSet(frs: seq<Fragment>): set<int> { set f | f in frs :: f.index }

  lemma {:induction false} FirstSeenMembers(frs: seq<Fragment>)
    ensures forall index :: index in FirstSeen(frs) <==> index in IndexSet(frs)
  {
    if frs == [] {
    } else {
      FirstSeenMembers(frs[..|frs| - 1]);
      assert frs == frs[..|frs| - 1] + [frs[|frs| - 1]];
    }
  }

  /** An index seen before keeps its first position; a new one gets the last. */
  lemma FirstAtStep(init: seq<Fragment>, f: Fragment, index: int)
    requires index in FirstSeen(init) || index == f.index
    ensures FirstAt(init + [f], index) == if index in FirstSeen(init) then FirstAt(init, index) else |init|
    ensures index in FirstSeen(init) ==> FirstAt(init, index) < |init|
  {
    FirstSeenMembers(init);
    FirstAtAppend(init, f, index);
  }

  lemma {:induction false} FirstSeenOrdered(frs: seq<Fragment>, i: nat, j: nat)
    requires i < j < |FirstSeen(frs)|
    ensures FirstAt(frs, FirstSeen(frs)[i]) < FirstAt(frs, FirstSeen(frs)[j])
  {
    var init, f := frs[..|frs| - 1], frs[|frs| - 1];
    var before := FirstSeen(init);
    assert frs == init + [f];
    FirstAtStep(init, f, FirstSeen(frs)[i]);
    FirstAtStep(init, f, FirstSeen(frs)[j]);
    if j < |before| { FirstSeenOrdered(init, i, j); }
  }

  /** Every index that occurs is listed once, and index a comes before b exactly when it occurred first. */
  lemma FirstSeenIsExact(frs: seq<Fragment>)
    ensures var order := FirstSeen(frs);
            && (forall i, j :: 0 <= i < j < |order| ==> order[i] != order[j])
            && (set index | index in order) == IndexSet(frs)
            && (forall i, j :: 0 <= i < j < |order| ==> FirstAt(frs, order[i]) < FirstAt(frs, order[j]))
  {
    FirstSeenMembers(frs);
    var order := FirstSeen(frs);
    forall i, j | 0 <= i < j < |order| ensures FirstAt(frs, order[i]) < FirstAt(frs, order[j]) && order[i] != order[j] {
      FirstSeenOrdered(frs, i, j);
    }
  }

  /** Position of the first fragment with this index. */
  function FirstAt(frs: seq<Fragment>, index: int): nat { FirstWhere(frs, HasIndex(index)) }

  function HasIndex(index: int): Fragment -> bool { (f: Fragment) => f.index == index }

  lemma FirstAtAppend(frs: seq<Fragment>, f: Fragment, index: int)
    ensures index in IndexSet(frs) <==> FirstAt(frs, index) < |frs|
    ensures FirstAt(frs + [f], index) ==
            if index in IndexSet(frs) then FirstAt(frs, index) else |frs| + if f.index == index then 0 else 1
  {
    FirstWhereFinds(frs, HasIndex(index));
    FirstWhereAppend(frs, f, HasIndex(index));
    if FirstAt(frs, index) < |frs| { assert frs[FirstAt(frs, index)] in frs; }
  }

  // ---- the decoder ----

  /** Fragments not yet flushed, bytes not yet emitted, chunks emitted. */
  datatype Decoder = Decoder(open: seq<Fragment>, held: seq<Byte>, out: seq<Chunk>)

  function Emitted(calls: seq<ToolCall>): seq<Chunk> {
    seq(|calls|, i requires 0 <= i < |calls| => ToolCallDone(calls[i]))
  }

  function EmitText(out: seq<Chunk>, text: seq<Byte>): seq<Chunk> {
    if text == [] then out else out + [TextDelta(text)]
  }

  function FrameStep(d: Decoder, line: Line): Decoder
    requires line.Frame?
  {
    var data := d.held + line.content;
    var h := Hold(data);
    var out := if line.content == [] then d.out else EmitText(d.out, data[..h]);
    var held := if line.content == [] then d.held else data[h..];
    var open := d.open + line.fragments;
    if line.finish == ToolCallsFinish then Decoder([], held, out + Emitted(Calls(open))) else Decoder(open, held, out)
  }

  /** The lines before the end-of-stream marker. */
  function Live(lines: seq<Line>): seq<Line> {
    if lines == [] || lines[0] == DoneMarker then [] else [lines[0]] + Live(lines[1..])
  }

  function Decode(lines: seq<Line>): Decoder {
    if lines == [] then Decoder([], [], [])
    else
      var d, line := Decode(lines[..|lines| - 1]), lines[|lines| - 1];
      if line.Frame? then FrameStep(d, line) else d
  }

  function Finished(d: Decoder): seq<Chunk> {
    EmitText(d.out, d.held) + Emitted(Calls(d.open)) + [Done]
  }

  /** A scan error without an end marker is reported and flushes nothing. */
  function Output(lines: seq<Line>, scanFails: bool): seq<Chunk> {
    var d := Decode(Live(lines));
    if scanFails && DoneMarker !in lines then d.out + [StreamError] else Finished(d)
  }

  /** The accumulator map behind Calls: one entry per index seen since the last flush. */
  ghost predicate Accumulates(order: seq<int>, pending: map<int, ToolCall>, open: seq<Fragment>) {
    && order == FirstSeen(open)
    && (forall index :: index in pending <==> index in order)
    && (forall index :: index in pending ==> pending[index] == Assembled(open, index))
  }

  lemma {:induction false} UnseenIsEmpty(frs: seq<Fragment>, index: int)
    requires index !in FirstSeen(frs)
    ensures Assembled(frs, index) == ToolCall("", "", "")
  {
    if frs == [] {
    } else {
      UnseenIsEmpty(frs[..|frs| - 1], index);
    }
  }

  method AddFragment(order: seq<int>, pending: map<int, ToolCall>, tc: Fragment, ghost open: seq<Fragment>)
    returns (order': seq<int>, pending': map<int, ToolCall>)
    requires Accumulates(order, pending, open)
    ensures Accumulates(order', pending', open + [tc])
  {
    order', pending' := order, pending;
    var acc := ToolCall("", "", "");
    if tc.index in pending {
      acc := pending[tc.index];
    } else {
      order' := order' + [tc.index];
      UnseenIsEmpty(open, tc.index);
    }
    if tc.id != "" {
      acc := acc.(id := tc.id);
    }
    if tc.name != "" {
      acc := acc.(name := tc.name);
    }
    if tc.arguments != "" {
      acc := acc.(arguments := acc.arguments + tc.arguments);
    }
    pending' := pending'[tc.index := acc];
    FirstSeenAppend(open, tc);
    AssembledAppend(open, tc, tc.index);
    forall index | index in pending' ensures pending'[index] == Assembled(open + [tc], index) {
      AssembledAppend(open, tc, index);
    }
  }

  lemma FirstSeenAppend(frs: seq<Fragment>, f: Fragment)
    ensures FirstSeen(frs + [f]) == if f.index in FirstSeen(frs) then FirstSeen(frs) else FirstSeen(frs) + [f.index]
  {
    assert (frs + [f])[..|frs|] == frs;
  }

  lemma AssembledAppend(frs: seq<Fragment>, f: Fragment, index: int)
    ensures var c := Assembled(frs, index);
            Assembled(frs + [f], index) == if f.index != index then c else
              ToolCall(if f.id != "" then f.id else c.id, if f.name != "" then f.name else c.name, c.arguments + f.arguments)
  {
    assert (frs + [f])[..|frs|] == frs;
    assert Arguments(frs, index) + "" == Arguments(frs, index);
  }

  method FlushPending(order: seq<int>, pending: map<int, ToolCall>, ghost open: seq<Fragment>) returns (out: seq<Chunk>)
    requires Accumulates(order, pending, open)
    ensures |out| == |order| && forall k :: 0 <= k < |order| ==> order[k] in pending && out[k] == ToolCallDone(pending[order[k]])
    ensures out == Emitted(Calls(open))
  {
    out := [];
    for k := 0 to |order|
      invariant out == Emitted(Calls(open))[..k]
    {
      out := out + [ToolCallDone(pending[order[k]])];
    }
  }

  /** The variables of one streamed response. */
  class StreamDecoder {
    var pending: map<int, ToolCall>
    var order: seq<int>
    var out: seq<Chunk>
    const textBuf: Utf8DeltaBuffer
    ghost var open: seq<Fragment>

    constructor ()
      ensures Valid() && State() == Decoder([], [], []) && fresh(textBuf)
    {
      pending, order, out, open := map[], [], [], [];
      textBuf := new Utf8DeltaBuffer();
    }

    ghost predicate Valid()
      reads this
    {
      Accumulates(order, pending, open)
    }

    ghost function State(): Decoder
      reads this, textBuf
    {
      Decoder(open, textBuf.pending, out)
    }

    method PushText(content: seq<Byte>)
      requires Valid()
      modifies this`out, textBuf
      ensures Valid()
      ensures var was, data := old(State()), old(textBuf.pending) + content;
              State() == if content == [] then was
                         else Decoder(was.open, data[Hold(data)..], EmitText(was.out, data[..Hold(data)]))
    {
      if content == [] {
        return;
      }
      ghost var data := textBuf.pending + content;
      var safe := textBuf.Push(content);
      assert safe == data[..|safe|] && textBuf.pending == data[|safe|..];
      if safe != [] {
        out := out + [TextDelta(safe)];
      }
    }

    method AddFragments(fragments: seq<Fragment>)
      requires Valid()
      modifies this`pending, this`order, this`open
      ensures Valid() && open == old(open) + fragments
    {
      for k := 0 to |fragments|
        invariant Valid() && open == old(open) + fragments[..k]
      {
        order, pending := AddFragment(order, pending, fragments[k], open);
        open := open + [fragments[k]];
      }
    }

    method Flush()
      requires Valid()
      modifies this`pending, this`order, this`open, this`out
      ensures Valid() && open == [] && out == old(out) + Emitted(Calls(old(open)))
    {
      var flushed := FlushPending(order, pending, open);
      out := out + flushed;
      order, pending, open := [], map[], [];
    }

    method Feed(line: Line)
      requires Valid() && line.Frame?
      modifies this, textBuf
      ensures Valid() && State() == FrameStep(old(State()), line)
    {
      PushText(line.content);
      AddFragments(line.fragments);
      if line.finish == ToolCallsFinish {
        Flush();
      }
    }

    method End()
      requires Valid()
      modifies this, textBuf
      ensures out == Finished(old(State()))
    {
      var tail := textBuf.Flush();
      if tail != [] {
        out := out + [TextDelta(tail)];
      }
      Flush();
      out := out + [Done];
    }
  }

  lemma {:induction false} LiveEnds(lines: seq<Line>, i: nat)
    requires i <= |lines| && DoneMarker !in lines[..i] && (i == |lines| || lines[i] == DoneMarker)
    ensures Live(lines) == lines[..i]
  {
    if i == 0 {
    } else {
      assert lines[0] in lines[..i];
      assert lines[1..][..i - 1] == lines[..i][1..];
      LiveEnds(lines[1..], i - 1);
    }
  }

  method StreamBody(lines: seq<Line>, scanFails: bool) returns (out: seq<Chunk>)
    ensures out == Output(lines, scanFails)
  {
    var decoder := new StreamDecoder();
    var i := 0;
    while i < |lines| && lines[i] != DoneMarker
      invariant i <= |lines| && DoneMarker !in lines[..i]
      invariant decoder.Valid() && decoder.State() == Decode(lines[..i])
      invariant fresh(decoder) && fresh(decoder.textBuf)
    {
      var line := lines[i];
      assert lines[..i + 1][..i] == lines[..i];
      assert lines[..i + 1] == lines[..i] + [line];
      i := i + 1;
      if line.Frame? {
        decoder.Feed(line);
      }
    }
    assert i == |lines| ==> lines[..i] == lines;
    LiveEnds(lines, i);
    if i == |lines| && scanFails {
      return decoder.out + [StreamError];
    }
    decoder.End();
    out := decoder.out;
  }

  // ---- what every uncancelled, error-free stream emits ----

  function TextOf(out: seq<Chunk>): seq<Byte> {
    if out == [] then []
    else TextOf(out[..|out| - 1]) + if out[|out| - 1].TextDelta? then out[|out| - 1].text else []
  }

  function CallsOf(out: seq<Chunk>): seq<ToolCall> {
    if out == [] then []
    else CallsOf(out[..|out| - 1]) + if out[|out| - 1].ToolCallDone? then [out[|out| - 1].call] else []
  }

  function Contents(lines: seq<Line>): seq<Byte> {
    if lines == [] then []
    else Contents(lines[..|lines| - 1]) + if lines[|lines| - 1].Frame? then lines[|lines| - 1].content else []
  }

  function Fragments(lines: seq<Line>): seq<Fragment> {
    if lines == [] then []
    else Fragments(lines[..|lines| - 1]) + if lines[|lines| - 1].Frame? then lines[|lines| - 1].fragments else []
  }

  /** The fragments cut at every tool_calls finish, without the open remainder. */
  function Batches(lines: seq<Line>): seq<seq<Fragment>> {
    if lines == [] then []
    else
      var init, line := lines[..|lines| - 1], lines[|lines| - 1];
      Batches(init) + if line.Frame? && line.finish == ToolCallsFinish then [Open(init) + line.fragments] else []
  }

  /** The fragments since the last tool_calls finish. */
  function Open(lines: seq<Line>): seq<Fragment> {
    if lines == [] then []
    else
      var init, line := lines[..|lines| - 1], lines[|lines| - 1];
      if !line.Frame? then Open(init) else if line.finish == ToolCallsFinish then [] else Open(init) + line.fragments
  }

  function Flatten(batches: seq<seq<Fragment>>): seq<Fragment> {
    if batches == [] then [] else Flatten(batches[..|batches| - 1]) + batches[|batches| - 1]
  }

  function CallsOfAll(batches: seq<seq<Fragment>>): seq<ToolCall> {
    if batches == [] then [] else CallsOfAll(batches[..|batches| - 1]) + Calls(batches[|batches| - 1])
  }

  lemma {:induction false} OutAppend(a: seq<Chunk>, b: seq<Chunk>)
    ensures TextOf(a + b) == TextOf(a) + TextOf(b) && CallsOf(a + b) == CallsOf(a) + CallsOf(b)
  {
    if b == [] {
      assert a + b == a;
    } else {
      assert (a + b)[..|a + b| - 1] == a + b[..|b| - 1];
      OutAppend(a, b[..|b| - 1]);
    }
  }

  lemma {:induction false} EmittedCalls(calls: seq<ToolCall>)
    ensures TextOf(Emitted(calls)) == [] && CallsOf(Emitted(calls)) == calls
  {
    if calls == [] {
    } else {
      var init := calls[..|calls| - 1];
      EmittedCalls(init);
      assert Emitted(calls)[..|calls| - 1] == Emitted(init);
    }
  }

  lemma EmittedText(out: seq<Chunk>, text: seq<Byte>)
    ensures TextOf(EmitText(out, text)) == TextOf(out) + text && CallsOf(EmitText(out, text)) == CallsOf(out)
  {
    if text != [] {
      assert (out + [TextDelta(text)])[..|out|] == out;
    }
  }

  lemma FlattenAppend(bs: seq<seq<Fragment>>, b: seq<Fragment>)
    ensures Flatten(bs + [b]) == Flatten(bs) + b && CallsOfAll(bs + [b]) == CallsOfAll(bs) + Calls(b)
  {
    assert (bs + [b])[..|bs|] == bs;
  }

  lemma Reassociate<X>(a: seq<X>, b: seq<X>, c: seq<X>)
    ensures a + (b + c) == a + b + c && a + [] == a
  {}

  /** One more line adds its fragments, whether to the open remainder or by closing a batch. */
  lemma BatchesStep(init: seq<Line>, line: Line)
    ensures Flatten(Batches(init + [line])) + Open(init + [line])
         == Flatten(Batches(init)) + Open(init) + if line.Frame? then line.fragments else []
  {
    assert (init + [line])[..|init|] == init;
    var flat, open := Flatten(Batches(init)), Open(init);
    if line.Frame? {
      Reassociate(flat, open, line.fragments);
      if line.finish == ToolCallsFinish {
        FlattenAppend(Batches(init), open + line.fragments);
        Reassociate(flat + (open + line.fragments), [], []);
      } else {
        Reassociate(Batches(init), [], []);
      }
    } else {
      Reassociate(Batches(init), [], []);
      Reassociate(flat + open, [], []);
    }
  }

  /** The batches and the open remainder are the fragment stream, cut but complete. */
  lemma {:induction false} BatchesPartition(lines: seq<Line>)
    ensures Flatten(Batches(lines)) + Open(lines) == Fragments(lines)
  {
    if lines == [] {
    } else {
      var init, line := lines[..|lines| - 1], lines[|lines| - 1];
      BatchesPartition(init);
      BatchesStep(init, line);
      assert lines == init + [line];
    }
  }

  /** The non-empty content pieces pushed through the text buffer. */
  function Pushed(lines: seq<Line>): seq<seq<Byte>> {
    if lines == [] then []
    else
      var line := lines[|lines| - 1];
      Pushed(lines[..|lines| - 1]) + if line.Frame? && line.content != [] then [line.content] else []
  }

  lemma {:induction false} PushedIsContents(lines: seq<Line>)
    ensures Concat(Pushed(lines)) == Contents(lines)
  {
    if lines == [] {
    } else {
      var init, line := lines[..|lines| - 1], lines[|lines| - 1];
      PushedIsContents(init);
      if line.Frame? && line.content != [] {
        assert (Pushed(init) + [line.content])[..|Pushed(init)|] == Pushed(init);
      } else {
        assert Pushed(lines) == Pushed(init);
      }
    }
  }

  /** What one frame adds to the text, to the calls, and to the open fragments. */
  lemma FrameAdds(d: Decoder, line: Line)
    requires line.Frame?
    ensures var d', data, open := FrameStep(d, line), d.held + line.content, d.open + line.fragments;
            && TextOf(d'.out) == TextOf(d.out) + (if line.content == [] then [] else data[..Hold(data)])
            && CallsOf(d'.out) == CallsOf(d.out) + (if line.finish == ToolCallsFinish then Calls(open) else [])
  {
    var data, open := d.held + line.content, d.open + line.fragments;
    EmittedText(d.out, data[..Hold(data)]);
    EmittedCalls(Calls(open));
    OutAppend(if line.content == [] then d.out else EmitText(d.out, data[..Hold(data)]), Emitted(Calls(open)));
  }

  /** The text buffer after one more line. */
  lemma PushedStep(init: seq<Line>, line: Line)
    ensures var f := Feed(Pushed(init));
            Feed(Pushed(init + [line])) ==
              if line.Frame? && line.content != []
              then Fed(f.outs + [(f.pending + line.content)[..Hold(f.pending + line.content)]],
                       (f.pending + line.content)[Hold(f.pending + line.content)..])
              else f
  {
    assert (init + [line])[..|init|] == init;
    if line.Frame? && line.content != [] {
      assert (Pushed(init) + [line.content])[..|Pushed(init)|] == Pushed(init);
    } else {
      assert Pushed(init + [line]) == Pushed(init);
    }
  }

  lemma {:induction false} TextIsContents(lines: seq<Line>)
    ensures TextOf(Decode(lines).out) + Decode(lines).held == Contents(lines)
  {
    if lines == [] {
    } else {
      var init, line := lines[..|lines| - 1], lines[|lines| - 1];
      TextIsContents(init);
      if line.Frame? { TextStep(Decode(init), line, Contents(init)); }
    }
  }

  lemma {:induction false} HeldIsPending(lines: seq<Line>)
    ensures Decode(lines).held == Feed(Pushed(lines)).pending
  {
    if lines == [] {
    } else {
      var init, line := lines[..|lines| - 1], lines[|lines| - 1];
      HeldIsPending(init);
      assert lines == init + [line];
      PushedStep(init, line);
      if line.Frame? { FrameAdds(Decode(init), line); }
    }
  }

  /** Text emitted plus text held is the content, and the held part is the UTF-8 buffer's. */
  lemma TextMeans(lines: seq<Line>)
    ensures TextOf(Decode(lines).out) + Decode(lines).held == Contents(lines)
    ensures Decode(lines).held == Feed(Pushed(lines)).pending
  {
    TextIsContents(lines);
    HeldIsPending(lines);
  }

  lemma Regroup(a: seq<Byte>, b: seq<Byte>, c: seq<Byte>, h: nat)
    requires h <= |b + c|
    ensures (a + (b + c)[..h]) + (b + c)[h..] == a + b + c
  {}

  lemma TextStep(d: Decoder, line: Line, before: seq<Byte>)
    requires line.Frame? && TextOf(d.out) + d.held == before
    ensures TextOf(FrameStep(d, line).out) + FrameStep(d, line).held == before + line.content
  {
    FrameAdds(d, line);
    Regroup(TextOf(d.out), d.held, line.content, Hold(d.held + line.content));
    if line.content == [] {
      assert TextOf(FrameStep(d, line).out) == TextOf(d.out);
      assert before + line.content == before;
    }
  }

  /** Calls emitted so far are those of the closed batches. */
  lemma {:induction false} CallsMean(lines: seq<Line>)
    ensures Decode(lines).open == Open(lines)
    ensures CallsOf(Decode(lines).out) == CallsOfAll(Batches(lines))
  {
    if lines == [] {
    } else {
      var init, line := lines[..|lines| - 1], lines[|lines| - 1];
      CallsMean(init);
      if line.Frame? {
        FrameAdds(Decode(init), line);
      }
      if line.Frame? && line.finish == ToolCallsFinish {
        FlattenAppend(Batches(init), Open(init) + line.fragments);
      } else {
        assert Batches(lines) == Batches(init);
      }
    }
  }

  lemma {:induction false} NoEndYet(lines: seq<Line>)
    ensures Done !in Decode(lines).out && StreamError !in Decode(lines).out
  {
    if lines == [] {
    } else {
      NoEndYet(lines[..|lines| - 1]);
    }
  }

  /** Every batch, the open remainder included. */
  function AllBatches(lines: seq<Line>): seq<seq<Fragment>> { Batches(lines) + [Open(lines)] }

  /**
    A stream that ends in done emits exactly one Done, last; its text is the whole content; its calls
    are one per index of each batch, in first-appearance order; and the batches cut the fragment
    stream without losing or repeating a fragment, also around flushes in the middle.
   */
  lemma StreamIsComplete(lines: seq<Line>, scanFails: bool)
    requires scanFails ==> DoneMarker in lines
    ensures var out, live := Output(lines, scanFails), Live(lines);
            && out != [] && out[|out| - 1] == Done && Done !in out[..|out| - 1] && StreamError !in out
            && TextOf(out) == Contents(live)
            && CallsOf(out) == CallsOfAll(AllBatches(live))
            && Flatten(AllBatches(live)) == Fragments(live)
  {
    var live := Live(lines);
    CallsMean(live);
    TextMeans(live);
    NoEndYet(live);
    BatchesPartition(live);
    FlattenAppend(Batches(live), Open(live));
    FinishedMeans(Decode(live));
  }

  lemma FinishedMeans(d: Decoder)
    requires Done !in d.out && StreamError !in d.out
    ensures var out := Finished(d);
            && TextOf(out) == TextOf(d.out) + d.held && CallsOf(out) == CallsOf(d.out) + Calls(d.open)
            && out != [] && out[|out| - 1] == Done && Done !in out[..|out| - 1] && StreamError !in out
  {
    var text, calls := EmitText(d.out, d.held), Emitted(Calls(d.open));
    EmittedText(d.out, d.held);
    EmittedCalls(Calls(d.open));
    OutAppend(text, calls);
    DoneAppends(text + calls);
    FinishedShape(d);
  }

  lemma FinishedShape(d: Decoder)
    requires Done !in d.out && StreamError !in d.out
    ensures var out := Finished(d);
            out != [] && out[|out| - 1] == Done && Done !in out[..|out| - 1] && StreamError !in out
  {}

  lemma DoneAppends(out: seq<Chunk>)
    ensures TextOf(out + [Done]) == TextOf(out) && CallsOf(out + [Done]) == CallsOf(out)
    ensures (out + [Done])[..|out|] == out
  {
    assert (out + [Done])[..|out|] == out;
  }

  /** All argument text emitted for an index, batch after batch. */
  function EmittedArguments(batches: seq<seq<Fragment>>, index: int): string {
    if batches == [] then ""
    else
      var b := batches[|batches| - 1];
      EmittedArguments(batches[..|batches| - 1], index) + if index in FirstSeen(b) then Assembled(b, index).arguments else ""
  }

  lemma {:induction false} ArgumentsAppend(a: seq<Fragment>, b: seq<Fragment>, index: int)
    ensures Arguments(a + b, index) == Arguments(a, index) + Arguments(b, index)
  {
    if b == [] {
      assert a + b == a;
    } else {
      assert (a + b)[..|a + b| - 1] == a + b[..|b| - 1];
      ArgumentsAppend(a, b[..|b| - 1], index);
    }
  }

  /** Every argument piece of an index is emitted exactly once, in order, whatever the interleaving. */
  lemma {:induction false} ArgumentsConserved(batches: seq<seq<Fragment>>, index: int)
    ensures EmittedArguments(batches, index) == Arguments(Flatten(batches), index)
  {
    if batches == [] {
    } else {
      var init, b := batches[..|batches| - 1], batches[|batches| - 1];
      ArgumentsConserved(init, index);
      ArgumentsAppend(Flatten(init), b, index);
      if index !in FirstSeen(b) { UnseenIsEmpty(b, index); }
    }
  }

  /** Every text chunk is one output of the UTF-8 buffer. */
  lemma {:induction false} TextChunksAreOutputs(lines: seq<Line>, c: Chunk)
    requires c in Decode(lines).out && c.TextDelta?
    ensures c.text in Feed(Pushed(lines)).outs
  {
    var init, line := lines[..|lines| - 1], lines[|lines| - 1];
    assert lines == init + [line];
    TextMeans(init);
    PushedStep(init, line);
    var outs := Feed(Pushed(init)).outs;
    if c in Decode(init).out {
      TextChunksAreOutputs(init, c);
    } else {
      NewTextChunk(Decode(init), line, c);
    }
  }

  lemma NewTextChunk(d: Decoder, line: Line, c: Chunk)
    requires line.Frame? && c in FrameStep(d, line).out && c !in d.out && c.TextDelta?
    ensures line.content != [] && c.text == (d.held + line.content)[..Hold(d.held + line.content)]
  {}

  lemma OutputsAreWellFormed(chunks: seq<seq<Byte>>)
    requires WellFormed(Concat(chunks))
    ensures forall text :: text in Feed(chunks).outs ==> WellFormed(text)
  {
    forall text | text in Feed(chunks).outs ensures WellFormed(text) {
      var k :| 0 <= k < |Feed(chunks).outs| && Feed(chunks).outs[k] == text;
      FeedPrefix(chunks, 0);
      OutputIsWellFormed(chunks, k);
    }
  }

  /** With nothing held back the end adds no text. */
  lemma FinishedText(d: Decoder)
    requires d.held == []
    ensures forall c :: c in Finished(d) && c.TextDelta? ==> c in d.out
  {}

  /** Well-formed content reaches the reader in well-formed pieces, however the frames cut it. */
  lemma TextChunksWellFormed(lines: seq<Line>, scanFails: bool)
    requires scanFails ==> DoneMarker in lines
    requires WellFormed(Contents(Live(lines)))
    ensures forall c :: c in Output(lines, scanFails) && c.TextDelta? ==> WellFormed(c.text)
  {
    var live := Live(lines);
    HeldIsPending(live);
    PushedIsContents(live);
    StreamEndsClean(Pushed(live));
    OutputsAreWellFormed(Pushed(live));
    FinishedText(Decode(live));
    forall c | c in Output(lines, scanFails) && c.TextDelta? ensures WellFormed(c.text) {
      TextChunksAreOutputs(live, c);
    }
  }

  // ---- what each call says, and where it stands ----

  /** The argument pieces of an index. */
  function Pieces(frs: seq<Fragment>, index: int): seq<string> {
    if frs == [] then [] else (if frs[0].index == index then [frs[0].arguments] else []) + Pieces(frs[1..], index)
  }

  function Joined(pieces: seq<string>): string { if pieces == [] then "" else pieces[0] + Joined(pieces[1..]) }

  lemma {:induction false} OnePiece(f: Fragment, index: int)
    ensures Arguments([f], index) == if f.index == index then f.arguments else ""
  {
    assert [f][..0] == [];
  }

  lemma {:induction false} FirstPiece(frs: seq<Fragment>, index: int)
    requires frs != []
    ensures Joined(Pieces(frs, index)) == (if frs[0].index == index then frs[0].arguments else "") + Joined(Pieces(frs[1..], index))
  {
    var rest := Pieces(frs[1..], index);
    if frs[0].index == index {
      assert ([frs[0].arguments] + rest)[1..] == rest;
    } else {
      assert [] + rest == rest && "" + Joined(rest) == Joined(rest);
    }
  }

  lemma {:induction false} ArgumentsAreJoined(frs: seq<Fragment>, index: int)
    ensures Arguments(frs, index) == Joined(Pieces(frs, index))
  {
    if frs == [] {
    } else {
      ArgumentsAreJoined(frs[1..], index);
      OnePiece(frs[0], index);
      FirstPiece(frs, index);
      ArgumentsAppend([frs[0]], frs[1..], index);
      assert [frs[0]] + frs[1..] == frs;
    }
  }

  /** The value is the last non-empty one of the index, or empty when there is none. */
  ghost predicate IsLastSet(frs: seq<Fragment>, index: int, field: Fragment -> string, value: string) {
    if value == "" then forall f :: f in frs && f.index == index ==> field(f) == ""
    else exists k :: 0 <= k < |frs| && IsSetLast(frs, index, field, value, k)
  }

  ghost predicate IsSetLast(frs: seq<Fragment>, index: int, field: Fragment -> string, value: string, k: nat) {
    && k < |frs| && frs[k].index == index && field(frs[k]) == value
    && forall j :: k < j < |frs| && frs[j].index == index ==> field(frs[j]) == ""
  }

  function IdOf(f: Fragment): string { f.id }

  function NameOf(f: Fragment): string { f.name }

  lemma LastSetAppend(frs: seq<Fragment>, f: Fragment, index: int, field: Fragment -> string, value: string)
    requires IsLastSet(frs, index, field, value)
    ensures IsLastSet(frs + [f], index, field, if f.index == index && field(f) != "" then field(f) else value)
  {
    var all := frs + [f];
    if f.index == index && field(f) != "" {
      assert IsSetLast(all, index, field, field(f), |frs|);
    } else if value != "" {
      var k :| 0 <= k < |frs| && IsSetLast(frs, index, field, value, k);
      assert IsSetLast(all, index, field, value, k);
    }
  }

  lemma {:induction false} LastIdIsSet(frs: seq<Fragment>, index: int)
    ensures IsLastSet(frs, index, IdOf, LastId(frs, index))
  {
    if frs == [] {
    } else {
      LastIdIsSet(frs[..|frs| - 1], index);
      LastSetAppend(frs[..|frs| - 1], frs[|frs| - 1], index, IdOf, LastId(frs[..|frs| - 1], index));
      assert frs == frs[..|frs| - 1] + [frs[|frs| - 1]];
    }
  }

  lemma {:induction false} LastNameIsSet(frs: seq<Fragment>, index: int)
    ensures IsLastSet(frs, index, NameOf, LastName(frs, index))
  {
    if frs == [] {
    } else {
      LastNameIsSet(frs[..|frs| - 1], index);
      LastSetAppend(frs[..|frs| - 1], frs[|frs| - 1], index, NameOf, LastName(frs[..|frs| - 1], index));
      assert frs == frs[..|frs| - 1] + [frs[|frs| - 1]];
    }
  }

  /** The call has the last id and name sent for the index, and all its argument pieces joined. */
  ghost predicate IsCallOf(c: ToolCall, frs: seq<Fragment>, index: int) {
    && IsLastSet(frs, index, IdOf, c.id) && IsLastSet(frs, index, NameOf, c.name)
    && c.arguments == Joined(Pieces(frs, index))
  }

  /** The indices that occur, once each, in the order in which they first occur. */
  ghost predicate Enumerates(order: seq<int>, frs: seq<Fragment>) {
    && (set index | index in order) == IndexSet(frs)
    && forall i, j :: 0 <= i < j < |order| ==> FirstAt(frs, order[i]) < FirstAt(frs, order[j])
  }

  lemma {:induction false} BatchCalls(frs: seq<Fragment>)
    ensures Enumerates(FirstSeen(frs), frs) && |Calls(frs)| == |FirstSeen(frs)| == |IndexSet(frs)|
    ensures forall k :: 0 <= k < |Calls(frs)| ==> IsCallOf(Calls(frs)[k], frs, FirstSeen(frs)[k])
  {
    FirstSeenIsExact(frs);
    DistinctSize(FirstSeen(frs));
    forall k | 0 <= k < |Calls(frs)| ensures IsCallOf(Calls(frs)[k], frs, FirstSeen(frs)[k]) {
      LastIdIsSet(frs, FirstSeen(frs)[k]);
      LastNameIsSet(frs, FirstSeen(frs)[k]);
      ArgumentsAreJoined(frs, FirstSeen(frs)[k]);
    }
  }

  lemma {:induction false} DistinctSize(s: seq<int>)
    requires forall i, j :: 0 <= i < j < |s| ==> s[i] != s[j]
    ensures |set x | x in s| == |s|
  {
    if s == [] {
      assert (set x | x in s) == {};
    } else {
      var init, last := s[..|s| - 1], s[|s| - 1];
      DistinctSize(init);
      assert s == init + [last];
      assert (set x | x in s) == (set x | x in init) + {last};
    }
  }

  /** One call per index of each batch. */
  function CallCount(batches: seq<seq<Fragment>>): nat {
    if batches == [] then 0 else CallCount(batches[..|batches| - 1]) + |IndexSet(batches[|batches| - 1])|
  }

  lemma {:induction false} CallsOfAllPrefix(batches: seq<seq<Fragment>>, m: nat)
    requires m <= |batches|
    ensures CallsOfAll(batches[..m]) <= CallsOfAll(batches)
    decreases |batches|
  {
    if m == |batches| {
      assert batches[..m] == batches;
    } else {
      CallsOfAllPrefix(batches[..|batches| - 1], m);
      assert batches[..|batches| - 1][..m] == batches[..m];
    }
  }

  lemma {:induction false} CallsOfAllCount(batches: seq<seq<Fragment>>)
    ensures |CallsOfAll(batches)| == CallCount(batches)
  {
    if batches == [] {
    } else {
      CallsOfAllCount(batches[..|batches| - 1]);
      BatchCalls(batches[|batches| - 1]);
    }
  }

  lemma {:induction false} BatchAt(batches: seq<seq<Fragment>>, n: nat)
    requires n < |batches|
    ensures |CallsOfAll(batches[..n])| == CallCount(batches[..n])
    ensures CallsOfAll(batches[..n]) + Calls(batches[n]) <= CallsOfAll(batches)
  {
    CallsOfAllCount(batches[..n]);
    CallsOfAllPrefix(batches, n + 1);
    assert batches[..n + 1] == batches[..n] + [batches[n]];
    FlattenAppend(batches[..n], batches[n]);
  }

  lemma PrefixAt<X>(all: seq<X>, a: seq<X>, b: seq<X>, k: nat)
    requires a + b <= all && k < |b|
    ensures |a| + k < |all| && all[|a| + k] == b[k]
  {
    assert (a + b)[|a| + k] == b[k];
  }

  /** The calls of the n-th batch, at their place among all calls. */
  ghost predicate CallsAt(calls: seq<ToolCall>, from: nat, frs: seq<Fragment>, order: seq<int>) {
    && Enumerates(order, frs) && from + |order| <= |calls|
    && forall k :: 0 <= k < |order| ==> IsCallOf(calls[from + k], frs, order[k])
  }

  lemma {:induction false} CallsPlaced(calls: seq<ToolCall>, before: seq<ToolCall>, own: seq<ToolCall>,
                                       frs: seq<Fragment>, order: seq<int>)
    requires before + own <= calls && Enumerates(order, frs) && |own| == |order|
    requires forall k :: 0 <= k < |order| ==> IsCallOf(own[k], frs, order[k])
    ensures CallsAt(calls, |before|, frs, order)
  {
    forall k | 0 <= k < |order| ensures IsCallOf(calls[|before| + k], frs, order[k]) {
      PrefixAt(calls, before, own, k);
    }
  }

  lemma {:induction false} BatchCallsAt(batches: seq<seq<Fragment>>, n: nat)
    requires n < |batches|
    ensures CallsAt(CallsOfAll(batches), CallCount(batches[..n]), batches[n], FirstSeen(batches[n]))
  {
    BatchAt(batches, n);
    BatchCalls(batches[n]);
    CallsPlaced(CallsOfAll(batches), CallsOfAll(batches[..n]), Calls(batches[n]), batches[n], FirstSeen(batches[n]));
  }

  /**
    The calls of a finished stream, batch after batch: one for each index of the batch, in the order in which
    the indices first occur in it, with the last id and name and all argument pieces of its index.
   */
  lemma {:induction false} StreamCalls(lines: seq<Line>, scanFails: bool, n: nat) returns (order: seq<int>)
    requires (scanFails ==> DoneMarker in lines) && n < |AllBatches(Live(lines))|
    ensures var batches, calls := AllBatches(Live(lines)), CallsOf(Output(lines, scanFails));
            |calls| == CallCount(batches) && CallsAt(calls, CallCount(batches[..n]), batches[n], order)
  {
    StreamIsComplete(lines, scanFails);
    CallsOfAllCount(AllBatches(Live(lines)));
    BatchCallsAt(AllBatches(Live(lines)), n);
    order := FirstSeen(AllBatches(Live(lines))[n]);
  }

  predicate Cuts(line: Line) { line.Frame? && line.finish == ToolCallsFinish }

  lemma {:induction false} FragmentsAppend(a: seq<Line>, b: seq<Line>)
    ensures Fragments(a + b) == Fragments(a) + Fragments(b)
  {
    if b == [] {
      assert a + b == a;
    } else {
      assert (a + b)[..|a + b| - 1] == a + b[..|b| - 1];
      FragmentsAppend(a, b[..|b| - 1]);
    }
  }

  lemma {:induction false} OpenSinceCut(lines: seq<Line>, cut: nat)
    requires cut <= |lines| && (cut > 0 ==> Cuts(lines[cut - 1])) && forall k :: cut <= k < |lines| ==> !Cuts(lines[k])
    ensures Open(lines) == Fragments(lines[cut..])
    decreases |lines|
  {
    if cut < |lines| {
      var init, line := lines[..|lines| - 1], lines[|lines| - 1];
      OpenSinceCut(init, cut);
      assert lines[cut..][..|lines| - cut - 1] == init[cut..];
    }
  }

  /** What is open is what came since the last tool_calls finish; everything before it is in the closed batches. */
  lemma {:induction false} BatchesEndAtCuts(lines: seq<Line>, cut: nat)
    requires cut <= |lines| && (cut > 0 ==> Cuts(lines[cut - 1])) && forall k :: cut <= k < |lines| ==> !Cuts(lines[k])
    ensures Open(lines) == Fragments(lines[cut..]) && Flatten(Batches(lines)) == Fragments(lines[..cut])
  {
    OpenSinceCut(lines, cut);
    BatchesPartition(lines);
    assert lines == lines[..cut] + lines[cut..];
    FragmentsAppend(lines[..cut], lines[cut..]);
    SameFront(Flatten(Batches(lines)), Fragments(lines[..cut]), Open(lines));
  }

  lemma SameFront<X>(a: seq<X>, b: seq<X>, rest: seq<X>)
    requires a + rest == b + rest
    ensures a == b
  {
    assert |a| == |b| && (a + rest)[..|a|] == a && (b + rest)[..|b|] == b;
  }

  lemma ErrorAppends(out: seq<Chunk>)
    ensures TextOf(out + [StreamError]) == TextOf(out) && CallsOf(out + [StreamError]) == CallsOf(out)
    ensures (out + [StreamError])[..|out|] == out
  {
    assert (out + [StreamError])[..|out|] == out;
  }

  lemma {:induction false} FailedOutput(lines: seq<Line>)
    requires DoneMarker !in lines
    ensures Live(lines) == lines && Output(lines, true) == Decode(lines).out + [StreamError]
  {
    LiveEnds(lines, |lines|);
    assert lines[..|lines|] == lines;
  }

  /** A stream whose reading fails ends in an error; it has emitted its closed batches and all text but an incomplete end. */
  lemma {:induction false} FailedStreamReports(lines: seq<Line>)
    requires DoneMarker !in lines
    ensures var out, n := Output(lines, true), |Output(lines, true)| - 1;
            && n >= 0 && out[n] == StreamError && Done !in out && StreamError !in out[..n]
            && TextOf(out) + Feed(Pushed(lines)).pending == Contents(lines)
            && CallsOf(out) == CallsOfAll(Batches(lines))
  {
    FailedOutput(lines);
    TextMeans(lines);
    CallsMean(lines);
    NoEndYet(lines);
    ErrorAppends(Decode(lines).out);
  }

  /** What one line emits comes behind what was emitted, and its calls behind all text so far but an incomplete end. */
  lemma {:induction false} CallsFollowText(lines: seq<Line>, line: Line, k: nat)
    requires line.Frame? && |Decode(lines).out| <= k < |Decode(lines + [line]).out| && Decode(lines + [line]).out[k].ToolCallDone?
    ensures Decode(lines).out <= Decode(lines + [line]).out
    ensures TextOf(Decode(lines + [line]).out[..k]) + Decode(lines + [line]).held == Contents(lines + [line])
  {
    assert (lines + [line])[..|lines|] == lines;
    var d, d' := Decode(lines), Decode(lines + [line]);
    TextMeans(lines + [line]);
    CallsBehindText(d, line, k);
  }

  lemma {:induction false} CallsAddNoText(text: seq<Chunk>, calls: seq<ToolCall>, k: nat)
    requires k <= |calls|
    ensures TextOf((text + Emitted(calls))[..|text| + k]) == TextOf(text)
  {
    assert (text + Emitted(calls))[..|text| + k] == text + Emitted(calls[..k]);
    OutAppend(text, Emitted(calls[..k]));
    EmittedCalls(calls[..k]);
  }

  lemma {:induction false} BehindText(before: seq<Chunk>, text: seq<Byte>, calls: seq<ToolCall>, k: nat)
    requires var out := EmitText(before, text) + Emitted(calls); |before| <= k < |out| && out[k].ToolCallDone?
    ensures var out := EmitText(before, text) + Emitted(calls); before <= out && TextOf(out[..k]) == TextOf(out)
  {
    var head := EmitText(before, text);
    assert k >= |head|;
    CallsAddNoText(head, calls, k - |head|);
    CallsAddNoText(head, calls, |calls|);
    assert (head + Emitted(calls))[..|head| + |calls|] == head + Emitted(calls);
  }

  lemma {:induction false} CallsBehindText(d: Decoder, line: Line, k: nat)
    requires line.Frame? && |d.out| <= k < |FrameStep(d, line).out| && FrameStep(d, line).out[k].ToolCallDone?
    ensures d.out <= FrameStep(d, line).out
    ensures TextOf(FrameStep(d, line).out[..k]) == TextOf(FrameStep(d, line).out)
  {
    var data := d.held + line.content;
    BehindText(d.out, if line.content == [] then [] else data[..Hold(data)], Calls(d.open + line.fragments), k);
  }
}

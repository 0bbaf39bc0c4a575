/**
  The buffer that keeps an incomplete UTF-8 character at the end of a streamed chunk until its
  remaining bytes arrive. Well-formedness follows RFC 3629, section 4.
 */
module Utf8 {
  type Byte = bv8

  const UTF_MAX := 4

  predicate IsContinuation(b: Byte) { b & 0xC0 == 0x80 }

  /** Sequence length announced by a lead byte; an illegal lead counts as one byte. */
  function RuneLenFromLead(b: Byte): (n: nat)
    ensures 1 <= n <= UTF_MAX
  {
    if b < 0x80 then 1
    else if b & 0xE0 == 0xC0 then 2
    else if b & 0xF0 == 0xE0 then 3
    else if b & 0xF8 == 0xF0 then 4
    else 1
  }

  /** Where the held-back bytes start, after back bytes from the end were all continuation bytes. */
  function Scan(data: seq<Byte>, back: nat): (h: nat)
    requires back <= |data|
    ensures |data| < h + UTF_MAX && h <= |data|
    decreases |data| - back
  {
    if back == |data| || back >= UTF_MAX then |data|
    else
      var i := |data| - 1 - back;
      if IsContinuation(data[i]) then Scan(data, back + 1)
      else if i + RuneLenFromLead(data[i]) <= |data| then |data|
      else i
  }

  function Hold(data: seq<Byte>): nat { Scan(data, 0) }

  class Utf8DeltaBuffer {
    var pending: seq<Byte>

    constructor ()
      ensures pending == []
    {
      pending := [];
    }

    /** Nothing is lost or invented, and at most three bytes wait. */
    method Push(s: seq<Byte>) returns (out: seq<Byte>)
      modifies this
      ensures out + pending == old(pending) + s
      ensures |out| == Hold(old(pending) + s)
      ensures |pending| < UTF_MAX
    {
      if s == [] && pending == [] {
        return [];
      }
      var data := pending + s;
      pending := [];
      var end := |data|;
      var i := end - 1;
      while i >= 0 && end - i <= UTF_MAX
        invariant -1 <= i < end && end - 1 - i <= UTF_MAX
        invariant pending == [] && Hold(data) == Scan(data, end - 1 - i)
      {
        var c := data[i];
        if IsContinuation(c) {
          i := i - 1;
          continue;
        }
        var need := RuneLenFromLead(c);
        if i + need <= end {
          return data;
        }
        pending := data[i..];
        return data[..i];
      }
      return data;
    }

    method Flush() returns (out: seq<Byte>)
      modifies this
      ensures out == old(pending) && pending == []
    {
      if |pending| == 0 {
        return [];
      }
      out := pending;
      pending := [];
    }
  }

  // ---- a whole stream ----

  function Concat(chunks: seq<seq<Byte>>): seq<Byte> {
    if chunks == [] then [] else Concat(chunks[..|chunks| - 1]) + chunks[|chunks| - 1]
  }

  datatype Fed = Fed(outs: seq<seq<Byte>>, pending: seq<Byte>)

  /** Pushing the chunks one by one into an empty buffer. */
  function Feed(chunks: seq<seq<Byte>>): Fed {
    if chunks == [] then Fed([], [])
    else
      var f := Feed(chunks[..|chunks| - 1]);
      var data := f.pending + chunks[|chunks| - 1];
      Fed(f.outs + [data[..Hold(data)]], data[Hold(data)..])
  }

  /** The buffer object computes Feed and its final flush. */
  method StreamText(chunks: seq<seq<Byte>>) returns (outs: seq<seq<Byte>>, tail: seq<Byte>)
    ensures outs == Feed(chunks).outs && tail == Feed(chunks).pending
  {
    var buffer := new Utf8DeltaBuffer();
    outs := [];
    for k := 0 to |chunks|
      invariant Fed(outs, buffer.pending) == Feed(chunks[..k])
    {
      assert chunks[..k + 1][..k] == chunks[..k];
      ghost var data := buffer.pending + chunks[k];
      var out := buffer.Push(chunks[k]);
      assert out == data[..|out|] && buffer.pending == data[|out|..];
      outs := outs + [out];
    }
    assert chunks[..|chunks|] == chunks;
    tail := buffer.Flush();
  }

  // ---- the split depends only on the bytes so far, not on the chunking ----

  lemma ScanStart(data: seq<Byte>)
    ensures Hold(data) < |data| ==> !IsContinuation(data[Hold(data)])
  {
    ScanLead(data, 0);
  }

  lemma {:induction false} ScanLead(data: seq<Byte>, back: nat)
    requires back <= |data|
    ensures Scan(data, back) < |data| ==> !IsContinuation(data[Scan(data, back)])
    decreases |data| - back
  {
    if back < |data| && back < UTF_MAX && IsContinuation(data[|data| - 1 - back]) { ScanLead(data, back + 1); }
  }

  /** Appending continuation bytes after complete data holds nothing back. */
  lemma {:induction false} ScanPastTail(data: seq<Byte>, s: seq<Byte>, back: nat)
    requires back <= |data| && Scan(data, back) == |data|
    ensures Scan(data + s, back + |s|) == |data + s|
    decreases |data| - back
  {
    if back < |data| && back + |s| < UTF_MAX {
      var i := |data| - 1 - back;
      assert (data + s)[i] == data[i];
      if IsContinuation(data[i]) { ScanPastTail(data, s, back + 1); }
    }
  }

  lemma {:induction false} ScanSuffix(front: seq<Byte>, e: seq<Byte>, back: nat)
    requires back <= |e|
    requires forall k :: |e| - back <= k < |e| ==> IsContinuation(e[k])
    requires e == [] || IsContinuation(e[0]) ==> Hold(front) == |front|
    ensures Scan(front + e, back) == |front| + Scan(e, back)
    decreases |e| - back
  {
    if back < |e| {
      var i := |e| - 1 - back;
      assert (front + e)[|front| + i] == e[i];
      if back < UTF_MAX && IsContinuation(e[i]) { ScanSuffix(front, e, back + 1); }
    } else {
      ScanPastTail(front, e, 0);
    }
  }

  /** Pushing data and then s holds back the same bytes as pushing them together. */
  lemma HoldCompose(data: seq<Byte>, s: seq<Byte>)
    ensures Hold(data + s) == Hold(data) + Hold(data[Hold(data)..] + s)
  {
    var h := Hold(data);
    var front, e := data[..h], data[h..] + s;
    ScanStart(data);
    assert h == |data| ==> front == data;
    assert data + s == front + e;
    ScanSuffix(front, e, 0);
  }

  lemma ConcatAppend(chunks: seq<seq<Byte>>, s: seq<Byte>)
    ensures Concat(chunks + [s]) == Concat(chunks) + s
  {
    assert (chunks + [s])[..|chunks|] == chunks;
  }

  lemma CutBehind(a: seq<Byte>, h: nat, s: seq<Byte>, n: nat)
    requires h <= |a| && n <= |a[h..] + s|
    ensures (a + s)[..h + n] == a[..h] + (a[h..] + s)[..n] && (a + s)[h + n..] == (a[h..] + s)[n..]
  {
    assert a + s == a[..h] + (a[h..] + s);
  }

  /** For arbitrary bytes and any chunking, output and pending are the input split at one fixed place. */
  lemma {:induction false} ChunkingDoesNotMatter(chunks: seq<seq<Byte>>)
    ensures var all := Concat(chunks);
            && Concat(Feed(chunks).outs) == all[..Hold(all)]
            && Feed(chunks).pending == all[Hold(all)..]
            && |Feed(chunks).pending| < UTF_MAX
  {
    if chunks == [] {
    } else {
      var init, s := chunks[..|chunks| - 1], chunks[|chunks| - 1];
      ChunkingDoesNotMatter(init);
      var f, before := Feed(init), Concat(init);
      var data := f.pending + s;
      HoldCompose(before, s);
      ConcatAppend(f.outs, data[..Hold(data)]);
      CutBehind(before, Hold(before), s, Hold(data));
    }
  }

  // ---- what is held back of arbitrary bytes ----

  /** How many bytes the lead byte of a character asks for in all; 1 for any other byte. */
  function Announced(b: Byte): nat {
    if 0xC0 <= b <= 0xDF then 2 else if 0xE0 <= b <= 0xEF then 3 else if 0xF0 <= b <= 0xF7 then 4 else 1
  }

  /** From i on there are fewer bytes than its lead byte asks for, and all behind it are continuation bytes. */
  ghost predicate Incomplete(data: seq<Byte>, i: nat) {
    && i < |data| && |data| - i < Announced(data[i])
    && forall k :: i < k < |data| ==> 0x80 <= data[k] <= 0xBF
  }

  lemma LeadBytes(b: Byte)
    ensures IsContinuation(b) <==> 0x80 <= b <= 0xBF
    ensures RuneLenFromLead(b) == Announced(b)
  {}

  lemma {:induction false} ScanFindsIncomplete(data: seq<Byte>, back: nat)
    requires back <= |data| && forall k :: |data| - back <= k < |data| ==> IsContinuation(data[k])
    ensures Scan(data, back) < |data| ==> Incomplete(data, Scan(data, back))
    ensures forall i :: 0 <= i < |data| - back && Incomplete(data, i) ==> Scan(data, back) == i
    decreases |data| - back
  {
    forall k | 0 <= k < |data|
      ensures IsContinuation(data[k]) <==> 0x80 <= data[k] <= 0xBF
      ensures RuneLenFromLead(data[k]) == Announced(data[k])
    {
      LeadBytes(data[k]);
    }
    if back < |data| && back < UTF_MAX && IsContinuation(data[|data| - 1 - back]) { ScanFindsIncomplete(data, back + 1); }
  }

  /** Of any bytes, well-formed or not, exactly an incomplete character at the end is held back. */
  lemma HoldIffIncomplete(data: seq<Byte>, i: nat)
    requires i < |data|
    ensures Hold(data) == i <==> Incomplete(data, i)
  {
    ScanFindsIncomplete(data, 0);
  }

  // ---- well-formed streams ----

  predicate Tail(b: Byte) { 0x80 <= b <= 0xBF }

  /** Length of the well-formed character s starts with, 0 if it starts with none. */
  function CharLen(s: seq<Byte>): (n: nat)
    ensures n <= |s| && n <= UTF_MAX
  {
    if |s| >= 1 && s[0] <= 0x7F then 1
    else if |s| >= 2 && 0xC2 <= s[0] <= 0xDF && Tail(s[1]) then 2
    else if |s| >= 3 && SecondOfThree(s[0], s[1]) && Tail(s[2]) then 3
    else if |s| >= 4 && SecondOfFour(s[0], s[1]) && Tail(s[2]) && Tail(s[3]) then 4
    else 0
  }

  predicate SecondOfThree(lead: Byte, second: Byte) {
    || (lead == 0xE0 && 0xA0 <= second <= 0xBF)
    || (0xE1 <= lead <= 0xEC && Tail(second))
    || (lead == 0xED && 0x80 <= second <= 0x9F)
    || (0xEE <= lead <= 0xEF && Tail(second))
  }

  predicate SecondOfFour(lead: Byte, second: Byte) {
    || (lead == 0xF0 && 0x90 <= second <= 0xBF)
    || (0xF1 <= lead <= 0xF3 && Tail(second))
    || (lead == 0xF4 && 0x80 <= second <= 0x8F)
  }

  predicate WellFormed(s: seq<Byte>) {
    s == [] || (CharLen(s) > 0 && WellFormed(s[CharLen(s)..]))
  }

  /** How many leading bytes are complete characters. */
  function Aligned(s: seq<Byte>): (n: nat)
    ensures n <= |s|
  {
    if CharLen(s) == 0 then 0 else CharLen(s) + Aligned(s[CharLen(s)..])
  }

  /** The masks of the program and the ranges of the standard say the same about a complete character. */
  lemma CharShape(s: seq<Byte>)
    requires CharLen(s) > 0
    ensures !IsContinuation(s[0]) && RuneLenFromLead(s[0]) == CharLen(s)
    ensures forall k :: 1 <= k < CharLen(s) ==> IsContinuation(s[k])
  {}

  lemma CharOfPrefix(s: seq<Byte>, m: nat)
    requires m <= |s| && CharLen(s) > 0
    ensures CharLen(s[..m]) == if m < CharLen(s) then 0 else CharLen(s)
  {}

  lemma CharIsWhole(s: seq<Byte>)
    requires CharLen(s) > 0
    ensures Hold(s[..CharLen(s)]) == CharLen(s)
  {
    CharShape(s);
    var c, n := s[..CharLen(s)], CharLen(s);
    assert Scan(c, n - 1) == n;
    assert n > 1 ==> Scan(c, n - 2) == Scan(c, n - 1);
    assert n > 2 ==> Scan(c, n - 3) == Scan(c, n - 2);
    assert n > 3 ==> Scan(c, n - 4) == Scan(c, n - 3);
  }

  lemma PartialCharIsHeld(s: seq<Byte>, m: nat)
    requires 0 < m < CharLen(s)
    ensures Hold(s[..m]) == 0
  {
    CharShape(s);
    var c := s[..m];
    assert Scan(c, m - 1) == 0;
    assert m > 1 ==> Scan(c, m - 2) == Scan(c, m - 1);
    assert m > 2 ==> Scan(c, m - 3) == Scan(c, m - 2);
  }

  /** A complete first character is passed on and does not affect what is held behind it. */
  lemma HoldSkipsChar(s: seq<Byte>)
    requires CharLen(s) > 0
    ensures Hold(s) == CharLen(s) + Hold(s[CharLen(s)..])
  {
    var n := CharLen(s);
    var c, rest := s[..n], s[n..];
    CharIsWhole(s);
    HoldCompose(c, rest);
    assert c[n..] + rest == rest;
    assert s == c + rest;
  }

  lemma AlignedBehindChar(s: seq<Byte>)
    requires CharLen(s) > 0 && Hold(s[CharLen(s)..]) == Aligned(s[CharLen(s)..])
    ensures Hold(s) == Aligned(s)
  {
    HoldSkipsChar(s);
  }

  /** On a prefix of a well-formed stream exactly the incomplete last character is held back. */
  lemma {:induction false} HoldIsAligned(w: seq<Byte>, m: nat)
    requires WellFormed(w) && m <= |w|
    ensures Hold(w[..m]) == Aligned(w[..m])
    decreases |w|
  {
    if m == 0 {
    } else {
      var n := CharLen(w);
      CharOfPrefix(w, m);
      if m >= n {
        HoldIsAligned(w[n..], m - n);
        assert w[n..][..m - n] == w[..m][n..];
        AlignedBehindChar(w[..m]);
      } else {
        PartialCharIsHeld(w, m);
      }
    }
  }

  lemma {:induction false} AlignedPartIsWellFormed(s: seq<Byte>)
    ensures WellFormed(s[..Aligned(s)])
    decreases |s|
  {
    var n := CharLen(s);
    if n > 0 {
      AlignedPartIsWellFormed(s[n..]);
      var front := s[..Aligned(s)];
      CharOfPrefix(s, Aligned(s));
      assert front[n..] == s[n..][..Aligned(s[n..])];
    }
  }

  lemma {:induction false} AlignedRestIsWellFormed(w: seq<Byte>, m: nat)
    requires WellFormed(w) && m <= |w|
    ensures WellFormed(w[Aligned(w[..m])..])
    decreases |w|
  {
    var n := CharLen(w);
    if m > 0 && m >= n {
      CharOfPrefix(w, m);
      AlignedRestIsWellFormed(w[n..], m - n);
      assert w[n..][..m - n] == w[..m][n..];
      assert w[Aligned(w[..m])..] == w[n..][Aligned(w[..m][n..])..];
    } else {
      if m > 0 { CharOfPrefix(w, m); }
      assert w[0..] == w;
    }
  }

  /** No longer prefix consists of complete characters. */
  lemma {:induction false} AlignedIsLongest(s: seq<Byte>, n: nat)
    requires n <= |s| && WellFormed(s[..n])
    ensures n <= Aligned(s)
    decreases |s|
  {
    if n == 0 {
    } else {
      var c := CharLen(s[..n]);
      assert CharLen(s) == c;
      assert s[c..][..n - c] == s[..n][c..];
      AlignedIsLongest(s[c..], n - c);
    }
  }

  lemma {:induction false} AlignedOfWhole(s: seq<Byte>)
    requires WellFormed(s)
    ensures Aligned(s) == |s|
    decreases |s|
  {
    if s == [] {
    } else {
      AlignedOfWhole(s[CharLen(s)..]);
    }
  }

  lemma {:induction false} ConcatPrefix(chunks: seq<seq<Byte>>, k: nat)
    requires k <= |chunks|
    ensures Concat(chunks[..k]) <= Concat(chunks)
    decreases |chunks|
  {
    if k < |chunks| {
      ConcatPrefix(chunks[..|chunks| - 1], k);
      assert chunks[..|chunks| - 1][..k] == chunks[..k];
    } else {
      assert chunks[..k] == chunks;
    }
  }

  lemma {:induction false} FeedPrefix(chunks: seq<seq<Byte>>, k: nat)
    requires k <= |chunks|
    ensures |Feed(chunks).outs| == |chunks| && Feed(chunks[..k]).outs == Feed(chunks).outs[..k]
    decreases |chunks|
  {
    if chunks == [] {
    } else {
      if k < |chunks| {
        FeedPrefix(chunks[..|chunks| - 1], k);
        assert chunks[..|chunks| - 1][..k] == chunks[..k];
      } else {
        FeedPrefix(chunks[..|chunks| - 1], k - 1);
        assert chunks[..k] == chunks;
      }
    }
  }

  lemma OutputAt(chunks: seq<seq<Byte>>, k: nat)
    requires k < |chunks|
    ensures |Feed(chunks).outs| == |chunks|
    ensures var sofar := Concat(chunks[..k]);
            var data := sofar[Hold(sofar)..] + chunks[k];
            Feed(chunks).outs[k] == data[..Hold(data)]
  {
    FeedPrefix(chunks, k + 1);
    ChunkingDoesNotMatter(chunks[..k]);
    var upto := chunks[..k + 1];
    assert upto[..k] == chunks[..k];
    var f := Feed(chunks[..k]);
    FeedPrefix(chunks[..k], 0);
    var data := f.pending + chunks[k];
    assert Feed(upto).outs == f.outs + [data[..Hold(data)]];
    assert Feed(upto).outs[k] == Feed(chunks).outs[k];
  }

  lemma DropPrefix(all: seq<Byte>, a: seq<Byte>, b: seq<Byte>, h: nat)
    requires a + b <= all && h <= |a|
    ensures a <= all && a[h..] + b <= all[h..]
  {
    assert (a + b)[h..] == a[h..] + b;
  }

  /** What is pushed out between two points of a well-formed stream is well-formed. */
  lemma PieceIsWellFormed(all: seq<Byte>, sofar: seq<Byte>, chunk: seq<Byte>)
    requires WellFormed(all) && sofar + chunk <= all
    ensures var data := sofar[Hold(sofar)..] + chunk;
            WellFormed(data[..Hold(data)])
  {
    DropPrefix(all, sofar, chunk, Hold(sofar));
    HeldRestIsWellFormed(all, sofar);
    HeldPartIsWellFormed(all[Hold(sofar)..], sofar[Hold(sofar)..] + chunk);
  }

  lemma HeldRestIsWellFormed(w: seq<Byte>, front: seq<Byte>)
    requires WellFormed(w) && front <= w
    ensures WellFormed(w[Hold(front)..])
  {
    assert w[..|front|] == front;
    HoldIsAligned(w, |front|);
    AlignedRestIsWellFormed(w, |front|);
  }

  lemma HeldPartIsWellFormed(w: seq<Byte>, front: seq<Byte>)
    requires WellFormed(w) && front <= w
    ensures WellFormed(front[..Hold(front)])
  {
    assert w[..|front|] == front;
    HoldIsAligned(w, |front|);
    AlignedPartIsWellFormed(front);
  }

  /** Each single output of a well-formed stream is well-formed. */
  lemma OutputIsWellFormed(chunks: seq<seq<Byte>>, k: nat)
    requires WellFormed(Concat(chunks)) && k < |chunks|
    ensures |Feed(chunks).outs| == |chunks| && WellFormed(Feed(chunks).outs[k])
  {
    OutputAt(chunks, k);
    ConcatPrefix(chunks, k + 1);
    assert chunks[..k + 1][..k] == chunks[..k];
    PieceIsWellFormed(Concat(chunks), Concat(chunks[..k]), chunks[k]);
  }

  /**
    For a well-formed stream in any chunking: after k chunks the output is the longest prefix of the
    input made of complete characters, and the final flush is empty.
   */
  lemma WellFormedStream(chunks: seq<seq<Byte>>, k: nat)
    requires WellFormed(Concat(chunks)) && k <= |chunks|
    ensures |Feed(chunks).outs| == |chunks|
    ensures var sofar := Concat(chunks[..k]);
            && Concat(Feed(chunks).outs[..k]) == sofar[..Aligned(sofar)]
            && WellFormed(sofar[..Aligned(sofar)])
            && (forall n: nat :: n <= |sofar| && WellFormed(sofar[..n]) ==> n <= Aligned(sofar))
    ensures Feed(chunks).pending == []
  {
    var all, sofar := Concat(chunks), Concat(chunks[..k]);
    ConcatPrefix(chunks, k);
    FeedPrefix(chunks, k);
    ChunkingDoesNotMatter(chunks[..k]);
    HoldIsAligned(all, |sofar|);
    assert all[..|sofar|] == sofar;
    AlignedPartIsWellFormed(sofar);
    forall n: nat | n <= |sofar| && WellFormed(sofar[..n]) ensures n <= Aligned(sofar) {
      AlignedIsLongest(sofar, n);
    }
    StreamEndsClean(chunks);
  }

  lemma StreamEndsClean(chunks: seq<seq<Byte>>)
    requires WellFormed(Concat(chunks))
    ensures Feed(chunks).pending == []
  {
    var all := Concat(chunks);
    ChunkingDoesNotMatter(chunks);
    HoldIsAligned(all, |all|);
    assert all[..|all|] == all;
    AlignedOfWhole(all);
  }
}

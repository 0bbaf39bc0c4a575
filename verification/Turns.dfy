/**
  One detached agent turn: an append-only event log with bounded subscriber channels, and the
  manager that keeps at most one running turn per conversation. Every mutex-protected section of
  the program is one atomic step here; steps of different goroutines interleave freely.
 */
module Turns {
  import opened Options

  const CAPACITY := 64

  datatype Event = Event(kind: string, content: string)

  /** A subscriber's channel: everything ever put on it, how much was taken off, and whether it is closed. */
  datatype Channel = Channel(sent: seq<Event>, taken: nat, closed: bool)

  predicate Full(ch: Channel) { |ch.sent| - ch.taken >= CAPACITY }

  /** The non-blocking send: a full channel drops the event. */
  function Offer(ch: Channel, ev: Event): Channel {
    if Full(ch) then ch else ch.(sent := ch.sent + [ev])
  }

  /**
    The fields of a turn. channels also keeps channels already taken out of subs, which their
    readers may still drain; panicked records a send on, or a second close of, a closed channel.
   */
  datatype TurnState = TurnState(
    events: seq<Event>, subs: set<nat>, channels: map<nat, Channel>, nextSub: nat,
    finished: bool, done: bool, panicked: bool)

  const NEW_TURN := TurnState([], {}, map[], 0, false, false, false)

  function Closed(channels: map<nat, Channel>, ids: set<nat>): map<nat, Channel> {
    map id | id in channels :: if id in ids then channels[id].(closed := true) else channels[id]
  }

  function Offered(channels: map<nat, Channel>, ids: set<nat>, ev: Event): map<nat, Channel> {
    map id | id in channels :: if id in ids then Offer(channels[id], ev) else channels[id]
  }

  predicate AnyClosed(channels: map<nat, Channel>, ids: set<nat>) {
    exists id :: id in ids && id in channels && channels[id].closed
  }

  function AppendStep(t: TurnState, ev: Event): TurnState {
    if t.finished then t
    else t.(events := t.events + [ev], channels := Offered(t.channels, t.subs, ev),
            panicked := t.panicked || AnyClosed(t.channels, t.subs))
  }

  function FinishStep(t: TurnState): TurnState {
    if t.finished then t
    else t.(finished := true, channels := Closed(t.channels, t.subs), subs := {}, done := true,
            panicked := t.panicked || AnyClosed(t.channels, t.subs) || t.done)
  }

  function SubscribeStep(t: TurnState): TurnState {
    if t.finished then t
    else t.(subs := t.subs + {t.nextSub}, channels := t.channels[t.nextSub := Channel([], 0, false)],
            nextSub := t.nextSub + 1)
  }

  function UnsubscribeStep(t: TurnState, id: nat): TurnState {
    if id in t.subs
    then t.(subs := t.subs - {id}, channels := Closed(t.channels, {id}), panicked := t.panicked || AnyClosed(t.channels, {id}))
    else t
  }

  /** A reader takes the oldest undelivered event, if any; closed channels can still be drained. */
  function ReceiveStep(t: TurnState, id: nat): TurnState {
    if id in t.channels && t.channels[id].taken < |t.channels[id].sent|
    then t.(channels := t.channels[id := t.channels[id].(taken := t.channels[id].taken + 1)])
    else t
  }

  datatype Action = Append(ev: Event) | Finish | Subscribe | Unsubscribe(id: nat) | Receive(id: nat)

  function Step(t: TurnState, a: Action): TurnState {
    match a
    case Append(ev) => AppendStep(t, ev)
    case Finish => FinishStep(t)
    case Subscribe => SubscribeStep(t)
    case Unsubscribe(id) => UnsubscribeStep(t, id)
    case Receive(id) => ReceiveStep(t, id)
  }

  function Run(t: TurnState, run: seq<Action>): TurnState {
    if run == [] then t else Step(Run(t, run[..|run| - 1]), run[|run| - 1])
  }

  /** The turn object of the program. */
  class Turn {
    var events: seq<Event>
    var subs: set<nat>
    var channels: map<nat, Channel>
    var nextSub: nat
    var finished: bool
    var done: bool
    var panicked: bool
    const conversation: int

    constructor (conversation: int)
      ensures State() == NEW_TURN && this.conversation == conversation
    {
      events, subs, channels, nextSub := [], {}, map[], 0;
      finished, done, panicked := false, false, false;
      this.conversation := conversation;
    }

    function State(): TurnState
      reads this
    {
      TurnState(events, subs, channels, nextSub, finished, done, panicked)
    }

    /** Go ranges over the subscriber map in no fixed order. */
    method Append(ev: Event)
      requires subs <= channels.Keys
      modifies this
      ensures State() == AppendStep(old(State()), ev)
    {
      if finished {
        return;
      }
      events := events + [ev];
      var todo := subs;
      while todo != {}
        invariant todo <= subs <= channels.Keys
        invariant channels == Offered(old(channels), subs - todo, ev)
        invariant panicked == (old(panicked) || AnyClosed(old(channels), subs - todo))
        invariant events == old(events) + [ev] && subs == old(subs) && nextSub == old(nextSub)
        invariant finished == old(finished) && done == old(done)
        decreases todo
      {
        var id :| id in todo;
        ghost var before := subs - todo;
        todo := todo - {id};
        assert subs - todo == before + {id};
        if channels[id].closed {
          panicked := true;
        }
        channels := channels[id := Offer(channels[id], ev)];
      }
    }

    method MarkFinished()
      requires subs <= channels.Keys
      modifies this
      ensures State() == FinishStep(old(State()))
    {
      if finished {
        return;
      }
      finished := true;
      var todo := subs;
      while todo != {}
        invariant todo <= subs <= channels.Keys
        invariant channels == Closed(old(channels), subs - todo)
        invariant panicked == (old(panicked) || AnyClosed(old(channels), subs - todo))
        invariant events == old(events) && subs == old(subs) && nextSub == old(nextSub)
        invariant finished && done == old(done)
        decreases todo
      {
        var id :| id in todo;
        ghost var before := subs - todo;
        todo := todo - {id};
        assert subs - todo == before + {id};
        if channels[id].closed {
          panicked := true;
        }
        channels := channels[id := channels[id].(closed := true)];
      }
      subs := {};
      if done {
        panicked := true;
      }
      done := true;
    }

    /** Backlog plus tail; a finished turn hands out its frozen log and no channel. */
    method Subscribe() returns (backlog: seq<Event>, incoming: Option<nat>)
      modifies this
      ensures State() == SubscribeStep(old(State()))
      ensures backlog == old(events)
      ensures incoming == if old(finished) then None else Some(old(nextSub))
    {
      backlog := events;
      if finished {
        return backlog, None;
      }
      var id := nextSub;
      nextSub := nextSub + 1;
      channels := channels[id := Channel([], 0, false)];
      subs := subs + {id};
      incoming := Some(id);
    }

    method Unsubscribe(id: nat)
      requires subs <= channels.Keys
      modifies this
      ensures State() == UnsubscribeStep(old(State()), id)
    {
      if id in subs {
        subs := subs - {id};
        if channels[id].closed {
          panicked := true;
        }
        channels := channels[id := channels[id].(closed := true)];
      }
    }
  }

  // ---- what every run keeps ----

  /** Registered channels are exactly the open ones; nothing has panicked. */
  ghost predicate Safe(t: TurnState) {
    && !t.panicked && t.done == t.finished && (t.finished ==> t.subs == {})
    && (forall id :: id in t.channels ==> id < t.nextSub)
    && (forall id :: id in t.subs ==> id in t.channels)
    && (forall id :: id in t.channels ==> (id in t.subs <==> !t.channels[id].closed))
    && (forall id :: id in t.channels ==>
          t.channels[id].taken <= |t.channels[id].sent| <= t.channels[id].taken + CAPACITY)
  }

  lemma StepKeepsSafe(t: TurnState, a: Action)
    requires Safe(t)
    ensures Safe(Step(t, a))
  {
    match a
    case Append(ev) => assert !AnyClosed(t.channels, t.subs);
    case Finish => assert !AnyClosed(t.channels, t.subs);
    case Subscribe =>
    case Unsubscribe(id) => assert id in t.subs ==> !AnyClosed(t.channels, {id});
    case Receive(id) =>
  }

  /** In every run no closed channel is sent to or closed again, however often readers unsubscribe. */
  lemma {:induction false} NeverPanics(run: seq<Action>)
    ensures Safe(Run(NEW_TURN, run))
  {
    if run == [] {
    } else {
      NeverPanics(run[..|run| - 1]);
      StepKeepsSafe(Run(NEW_TURN, run[..|run| - 1]), run[|run| - 1]);
    }
  }

  lemma {:induction false} RunAppend(t: TurnState, a: seq<Action>, b: seq<Action>)
    ensures Run(t, a + b) == Run(Run(t, a), b)
  {
    if b == [] {
      assert a + b == a;
    } else {
      assert (a + b)[..|a + b| - 1] == a + b[..|b| - 1];
      RunAppend(t, a, b[..|b| - 1]);
    }
  }

  lemma {:induction false} RunKeepsSafe(t: TurnState, run: seq<Action>)
    requires Safe(t)
    ensures Safe(Run(t, run))
  {
    if run == [] {
    } else {
      RunKeepsSafe(t, run[..|run| - 1]);
      StepKeepsSafe(Run(t, run[..|run| - 1]), run[|run| - 1]);
    }
  }

  /** The events appended in a run before its first finish. */
  function Logged(run: seq<Action>): seq<Event> {
    if run == [] then []
    else
      var init, a := run[..|run| - 1], run[|run| - 1];
      Logged(init) + if a.Append? && Finish !in init then [a.ev] else []
  }

  /** Whoever is subscribed, the log is every event appended before the turn finished, in order. */
  lemma {:induction false} LogIsWhatWasAppended(run: seq<Action>)
    ensures Run(NEW_TURN, run).events == Logged(run)
    ensures Run(NEW_TURN, run).finished <==> Finish in run
  {
    if run == [] {
    } else {
      LogIsWhatWasAppended(run[..|run| - 1]);
      assert run == run[..|run| - 1] + [run[|run| - 1]];
    }
  }

  /** The log only grows, and a finished turn's log is frozen. */
  lemma {:induction false} LogGrows(t: TurnState, run: seq<Action>)
    ensures t.events <= Run(t, run).events
    ensures t.finished ==> Run(t, run).finished && Run(t, run).events == t.events
  {
    if run == [] {
    } else {
      LogGrows(t, run[..|run| - 1]);
    }
  }

  /** Order-preserving selection. */
  predicate Subsequence(a: seq<Event>, b: seq<Event>) {
    if a == [] then true
    else if b == [] then false
    else if a[|a| - 1] == b[|b| - 1] then Subsequence(a[..|a| - 1], b[..|b| - 1])
    else Subsequence(a, b[..|b| - 1])
  }

  /** The events appended in a run before it finishes and before the subscriber leaves. */
  function Heard(run: seq<Action>, id: nat): seq<Event> {
    if run == [] then []
    else
      var init, a := run[..|run| - 1], run[|run| - 1];
      Heard(init, id) + if a.Append? && Finish !in init && Unsubscribe(id) !in init then [a.ev] else []
  }

  /** How many of them met a channel with 64 undelivered events. */
  function Drops(t: TurnState, run: seq<Action>, id: nat): nat {
    if run == [] then 0
    else
      var init, a := run[..|run| - 1], run[|run| - 1];
      var channels := Run(t, init).channels;
      Drops(t, init, id)
      + if a.Append? && Finish !in init && Unsubscribe(id) !in init
           && id in channels && |channels[id].sent| - channels[id].taken >= CAPACITY then 1 else 0
  }

  /** An event put on the channel, or dropped from it, extends the selection. */
  lemma {:induction false} SubsequenceExtends(a: seq<Event>, b: seq<Event>, e: Event)
    requires Subsequence(a, b)
    ensures Subsequence(a, b + [e]) && Subsequence(a + [e], b + [e])
    decreases |b|, 1
  {
    assert (b + [e])[..|b|] == b && (a + [e])[..|a|] == a;
    if a != [] && a[|a| - 1] == e {
      SubsequenceInit(a, b);
    }
  }

  lemma {:induction false} SubsequenceInit(a: seq<Event>, b: seq<Event>)
    requires a != [] && Subsequence(a, b)
    ensures Subsequence(a[..|a| - 1], b)
    decreases |b|, 0
  {
    var init, last := b[..|b| - 1], b[|b| - 1];
    assert init + [last] == b;
    if a[|a| - 1] != last {
      SubsequenceInit(a, init);
    }
    SubsequenceExtends(a[..|a| - 1], init, last);
  }

  lemma {:induction false} SubsequenceSize(a: seq<Event>, b: seq<Event>)
    requires Subsequence(a, b)
    ensures |a| <= |b| && (|a| == |b| ==> a == b)
    decreases |b|
  {
    if a == [] {
    } else {
      if a[|a| - 1] == b[|b| - 1] {
        SubsequenceSize(a[..|a| - 1], b[..|b| - 1]);
        assert a == a[..|a| - 1] + [a[|a| - 1]] && b == b[..|b| - 1] + [b[|b| - 1]];
      } else {
        SubsequenceSize(a, b[..|b| - 1]);
      }
    }
  }

  lemma RegisteredStep(t: TurnState, a: Action, id: nat)
    requires Safe(t) && id in t.channels
    ensures id in Step(t, a).channels && (Step(t, a).finished <==> t.finished || a.Finish?)
    ensures id in Step(t, a).subs <==> id in t.subs && !a.Finish? && a != Unsubscribe(id)
  {}

  /** A subscriber stays registered until it leaves or the turn finishes. */
  lemma {:induction false} RunRegisters(start: TurnState, run: seq<Action>, id: nat)
    requires Safe(start) && id in start.subs
    ensures id in Run(start, run).channels && (Run(start, run).finished <==> Finish in run)
    ensures id in Run(start, run).subs <==> Finish !in run && Unsubscribe(id) !in run
  {
    if run == [] {
    } else {
      var init, a := run[..|run| - 1], run[|run| - 1];
      RunRegisters(start, init, id);
      RunKeepsSafe(start, init);
      assert run == init + [a];
      RegisteredStep(Run(start, init), a, id);
    }
  }

  predicate Reaches(t: TurnState, a: Action, id: nat) {
    a.Append? && !t.finished && id in t.subs && id in t.channels
    && |t.channels[id].sent| - t.channels[id].taken < CAPACITY
  }

  lemma SentStep(t: TurnState, a: Action, id: nat)
    requires Safe(t) && id in t.channels
    ensures id in Step(t, a).channels
    ensures Step(t, a).channels[id].sent == t.channels[id].sent + if Reaches(t, a, id) then [a.ev] else []
  {}

  lemma {:induction false} OneMoreHeard(sent: seq<Event>, heard: seq<Event>, drops: nat, ev: Event, full: bool)
    requires Subsequence(sent, heard) && |heard| == |sent| + drops
    ensures Subsequence(sent + if full then [] else [ev], heard + [ev])
    ensures |heard + [ev]| == |sent + if full then [] else [ev]| + drops + if full then 1 else 0
  {
    SubsequenceExtends(sent, heard, ev);
    assert sent + [] == sent;
  }

  /** What is put on a subscriber's channel is what is appended for it, in order, without what met a full channel. */
  lemma {:induction false} RunSends(start: TurnState, run: seq<Action>, id: nat)
    requires Safe(start) && id in start.subs && start.channels[id].sent == []
    ensures id in Run(start, run).channels && Subsequence(Run(start, run).channels[id].sent, Heard(run, id))
    ensures |Heard(run, id)| == |Run(start, run).channels[id].sent| + Drops(start, run, id)
  {
    if run == [] {
    } else {
      var init, a := run[..|run| - 1], run[|run| - 1];
      RunSends(start, init, id);
      RunKeepsSafe(start, init);
      RunRegisters(start, init, id);
      var t := Run(start, init);
      SentStep(t, a, id);
      if a.Append? && Finish !in init && Unsubscribe(id) !in init {
        var full := |t.channels[id].sent| - t.channels[id].taken >= CAPACITY;
        assert Reaches(t, a, id) <==> !full;
        OneMoreHeard(t.channels[id].sent, Heard(init, id), Drops(start, init, id), a.ev, full);
      } else {
        assert t.channels[id].sent + [] == t.channels[id].sent && Heard(init, id) + [] == Heard(init, id);
      }
    }
  }

  lemma {:induction false} HeardWhole(sent: seq<Event>, heard: seq<Event>, drops: nat)
    requires Subsequence(sent, heard) && |heard| == |sent| + drops
    ensures sent == heard <==> drops == 0
  {
    SubsequenceSize(sent, heard);
  }

  lemma PrefixRead(events: seq<Event>, k: nat, sent: seq<Event>, taken: nat)
    requires k <= |events| && sent <= events[k..] && taken <= |sent|
    ensures events[..k] + sent[..taken] == events[..k + taken]
  {}

  /** What is appended for a subscriber continues what was logged when it came, as long as it stays. */
  lemma {:induction false} HeardIsRest(before: seq<Action>, after: seq<Action>, id: nat)
    requires Finish !in before
    ensures var log, all := Logged(before), Logged(before + [Subscribe] + after);
            && log <= all && Heard(after, id) <= all[|log|..]
            && (Unsubscribe(id) !in after ==> Heard(after, id) == all[|log|..])
  {
    var head, log := before + [Subscribe], Logged(before);
    if after == [] {
      assert head[..|before|] == before && head + after == head;
      assert Logged(head) == log + [];
    } else {
      var init, a := after[..|after| - 1], after[|after| - 1];
      HeardIsRest(before, init, id);
      assert after == init + [a];
      assert (head + after)[..|head + after| - 1] == head + init;
      var grown := Logged(head + init);
      assert Logged(head + after) == grown + if a.Append? && Finish !in init then [a.ev] else [];
      assert a.Append? ==> (grown + [a.ev])[|log|..] == grown[|log|..] + [a.ev];
    }
  }

  lemma {:induction false} LoggedAppend(a: seq<Action>, b: seq<Action>)
    ensures Logged(a) <= Logged(a + b)
    ensures Finish in a ==> Logged(a + b) == Logged(a)
  {
    if b == [] {
      assert a + b == a;
    } else {
      assert (a + b)[..|a + b| - 1] == a + b[..|b| - 1];
      LoggedAppend(a, b[..|b| - 1]);
    }
  }

  lemma {:induction false} SubscribedLogs(before: seq<Action>, after: seq<Action>)
    requires Finish !in before
    ensures Run(NEW_TURN, before).events == Logged(before) && !Run(NEW_TURN, before).finished
    ensures Run(NEW_TURN, before + [Subscribe] + after).events == Logged(before + [Subscribe] + after)
  {
    LogIsWhatWasAppended(before);
    LogIsWhatWasAppended(before + [Subscribe] + after);
  }

  /** A subscriber of a running turn is given a fresh channel, and it gets there what is appended for it unless it is full. */
  lemma {:induction false} FreshSubscriber(t1: TurnState, after: seq<Action>)
    requires Safe(t1) && !t1.finished
    ensures var id, start := t1.nextSub, SubscribeStep(t1);
            var t := Run(start, after);
            && id in t.channels && (id in t.subs <==> Finish !in after && Unsubscribe(id) !in after)
            && Subsequence(t.channels[id].sent, Heard(after, id))
            && (t.channels[id].sent == Heard(after, id) <==> Drops(start, after, id) == 0)
            && t.channels[id].taken <= |t.channels[id].sent|
  {
    var id, start := t1.nextSub, SubscribeStep(t1);
    StepKeepsSafe(t1, Subscribe);
    RunRegisters(start, after, id);
    RunSends(start, after, id);
    RunKeepsSafe(start, after);
    HeardWhole(Run(start, after).channels[id].sent, Heard(after, id), Drops(start, after, id));
  }

  lemma {:induction false} SubscribedChannel(before: seq<Action>, after: seq<Action>)
    requires Finish !in before
    ensures var t1, t := Run(NEW_TURN, before), Run(NEW_TURN, before + [Subscribe] + after);
            var id := t1.nextSub;
            && id in t.channels && (id in t.subs <==> Finish !in after && Unsubscribe(id) !in after)
            && Subsequence(t.channels[id].sent, Heard(after, id))
            && (t.channels[id].sent == Heard(after, id) <==> Drops(SubscribeStep(t1), after, id) == 0)
            && t.channels[id].taken <= |t.channels[id].sent|
  {
    NeverPanics(before);
    LogIsWhatWasAppended(before);
    SubscribedRun(before, after);
    FreshSubscriber(Run(NEW_TURN, before), after);
  }

  /**
    A subscriber arriving while the turn runs: its backlog is everything appended so far, its channel
    carries a subsequence of what is appended while it stays, and the two agree exactly unless an event
    met a channel with 64 undelivered events. What it has read is then a gapless prefix of everything
    appended, and without an unsubscribe its channel is meant for the whole rest.
   */
  lemma {:induction false} SubscriberSeesLog(before: seq<Action>, after: seq<Action>)
    requires Finish !in before
    ensures var t1, t := Run(NEW_TURN, before), Run(NEW_TURN, before + [Subscribe] + after);
            var log, all := Logged(before), Logged(before + [Subscribe] + after);
            var id, k := t1.nextSub, |log|;
            var heard, drops := Heard(after, id), Drops(SubscribeStep(t1), after, id);
            && t1.events == log && t.events == all && log <= all && id in t.channels
            && (id in t.subs <==> Finish !in after && Unsubscribe(id) !in after)
            && heard <= all[k..] && (Unsubscribe(id) !in after ==> heard == all[k..])
            && Subsequence(t.channels[id].sent, heard)
            && (t.channels[id].sent == heard <==> drops == 0)
            && (drops == 0 ==>
                  var taken := t.channels[id].taken;
                  taken <= |heard| && log + t.channels[id].sent[..taken] == all[..k + taken])
  {
    var id := Run(NEW_TURN, before).nextSub;
    SubscribedLogs(before, after);
    SubscribedChannel(before, after);
    HeardIsRest(before, after, id);
    var ch := Run(NEW_TURN, before + [Subscribe] + after).channels[id];
    if ch.sent == Heard(after, id) {
      PrefixRead(Logged(before + [Subscribe] + after), |Logged(before)|, ch.sent, ch.taken);
    }
  }

  lemma {:induction false} SubscribedRun(before: seq<Action>, after: seq<Action>)
    ensures Run(NEW_TURN, before + [Subscribe] + after) == Run(SubscribeStep(Run(NEW_TURN, before)), after)
  {
    RunAppend(NEW_TURN, before + [Subscribe], after);
    assert (before + [Subscribe])[..|before|] == before;
  }

  /** A subscriber arriving after the end gets no channel and everything that was ever appended. */
  lemma {:induction false} LateSubscriberSeesAll(before: seq<Action>, after: seq<Action>)
    requires Finish in before
    ensures var t := Run(NEW_TURN, before);
            && SubscribeStep(t) == t && t.events == Logged(before)
            && Logged(before + [Subscribe] + after) == t.events
  {
    LogIsWhatWasAppended(before);
    LoggedAppend(before, [Subscribe] + after);
    assert before + [Subscribe] + after == before + ([Subscribe] + after);
  }

  /** A closed channel receives nothing more; its reader can still drain what was sent. */
  lemma {:induction false} ClosedChannelFrozen(t: TurnState, run: seq<Action>, id: nat)
    requires Safe(t) && id in t.channels && t.channels[id].closed
    ensures var t' := Run(t, run);
            id in t'.channels && t'.channels[id].closed && t'.channels[id].sent == t.channels[id].sent
            && t.channels[id].taken <= t'.channels[id].taken
  {
    RunKeepsSafe(t, run);
    if run != [] {
      ClosedChannelFrozen(t, run[..|run| - 1], id);
      RunKeepsSafe(t, run[..|run| - 1]);
    }
  }

  /** A subscriber that has left is never registered again, and its channel is closed as it was. */
  lemma {:induction false} UnsubscribeDetaches(t: TurnState, id: nat, run: seq<Action>)
    requires Safe(t) && id in t.channels
    ensures var t' := Run(UnsubscribeStep(t, id), run);
            id !in t'.subs && id in t'.channels && t'.channels[id].closed && t'.channels[id].sent == t.channels[id].sent
  {
    StepKeepsSafe(t, Unsubscribe(id));
    ClosedChannelFrozen(UnsubscribeStep(t, id), run, id);
    RunKeepsSafe(UnsubscribeStep(t, id), run);
  }

  function Reads(id: nat, n: nat): seq<Action> {
    if n == 0 then [] else Reads(id, n - 1) + [Receive(id)]
  }

  /** A channel after n more reads: they take the oldest undelivered events, or all there are. */
  function Drained(ch: Channel, n: nat): Channel {
    ch.(taken := if ch.taken + n <= |ch.sent| then ch.taken + n else |ch.sent|)
  }

  lemma ReadOnce(t: TurnState, id: nat, ch: Channel, n: nat)
    requires id in t.channels && t.channels[id] == Drained(ch, n) && ch.taken <= |ch.sent|
    ensures id in ReceiveStep(t, id).channels && ReceiveStep(t, id).channels[id] == Drained(ch, n + 1)
  {}

  lemma {:induction false} ReadsDeliver(t: TurnState, id: nat, n: nat)
    requires id in t.channels && t.channels[id].taken <= |t.channels[id].sent|
    ensures id in Run(t, Reads(id, n)).channels && Run(t, Reads(id, n)).channels[id] == Drained(t.channels[id], n)
  {
    if n == 0 {
    } else {
      ReadsDeliver(t, id, n - 1);
      assert Reads(id, n)[..|Reads(id, n)| - 1] == Reads(id, n - 1);
      ReadOnce(Run(t, Reads(id, n - 1)), id, t.channels[id], n - 1);
    }
  }
}

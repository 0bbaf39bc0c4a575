/**
  The conversation-to-turn index. Start, the end of a turn, its delayed cleanup and Get are atomic
  steps that interleave freely; the cleanup timer of a turn may fire any time after the turn ended.
 */
module TurnManagers {
  import opened Options
  import opened Turns

  /** The index, the conversation every turn was started for, and the turns that have ended. */
  datatype Registry<T(==)> = Registry(turns: map<int, T>, owner: map<T, int>, finished: set<T>)

  function Empty<T>(): Registry<T> { Registry(map[], map[], {}) }

  predicate Running<T(==)>(r: Registry<T>, t: T) { t in r.owner && t !in r.finished }

  predicate Refuses<T(==)>(r: Registry<T>, conv: int) { conv in r.turns && r.turns[conv] !in r.finished }

  function StartStep<T(==)>(r: Registry<T>, conv: int, t: T): Registry<T> {
    if Refuses(r, conv) then r else r.(turns := r.turns[conv := t], owner := r.owner[t := conv])
  }

  function EndStep<T(==)>(r: Registry<T>, t: T): Registry<T> { r.(finished := r.finished + {t}) }

  function CleanupStep<T(==)>(r: Registry<T>, t: T): Registry<T>
    requires t in r.owner
  {
    var conv := r.owner[t];
    if conv in r.turns && r.turns[conv] == t then r.(turns := r.turns - {conv}) else r
  }

  datatype Action<T> = Start(conv: int, t: T) | End(t: T) | Cleanup(t: T)

  /** A turn object is new when started, ends after it was started, and is cleaned up after it ended. */
  predicate Enabled<T(==)>(r: Registry<T>, a: Action<T>) {
    match a
    case Start(conv, t) => t !in r.owner && t !in r.finished
    case End(t) => t in r.owner
    case Cleanup(t) => t in r.owner && t in r.finished
  }

  function Step<T(==)>(r: Registry<T>, a: Action<T>): Registry<T>
    requires Enabled(r, a)
  {
    match a
    case Start(conv, t) => StartStep(r, conv, t)
    case End(t) => EndStep(r, t)
    case Cleanup(t) => CleanupStep(r, t)
  }

  /** states is a run of the manager from the empty index. */
  ghost predicate IsRun<T>(states: seq<Registry<T>>, actions: seq<Action<T>>) {
    && |states| == |actions| + 1 && states[0] == Empty()
    && forall i :: 0 <= i < |actions| ==> Enabled(states[i], actions[i]) && states[i + 1] == Step(states[i], actions[i])
  }

  /** Every running turn is the one the index holds for its conversation. */
  ghost predicate Consistent<T>(r: Registry<T>) {
    && (forall t :: t in r.owner && Running(r, t) ==> r.owner[t] in r.turns && r.turns[r.owner[t]] == t)
    && (forall conv :: conv in r.turns ==> r.turns[conv] in r.owner && r.owner[r.turns[conv]] == conv)
    && r.finished <= r.owner.Keys
  }

  lemma StepKeepsConsistent<T>(r: Registry<T>, a: Action<T>)
    requires Consistent(r) && Enabled(r, a)
    ensures Consistent(Step(r, a))
  {
    var r' := Step(r, a);
    forall t | t in r'.owner && Running(r', t) ensures r'.owner[t] in r'.turns && r'.turns[r'.owner[t]] == t {
      assert t in r.owner ==> Running(r, t);
    }
  }

  /** In every interleaving, at every moment, each running turn is the indexed one. */
  lemma {:induction false} RunsStayConsistent<T>(states: seq<Registry<T>>, actions: seq<Action<T>>, i: nat)
    requires IsRun(states, actions) && i < |states|
    ensures Consistent(states[i])
  {
    if i == 0 {
    } else {
      RunsStayConsistent(states, actions, i - 1);
      StepKeepsConsistent(states[i - 1], actions[i - 1]);
    }
  }

  /** Hence at most one turn runs per conversation, and Start is refused exactly while one does. */
  lemma OneTurnPerConversation<T>(states: seq<Registry<T>>, actions: seq<Action<T>>, i: nat)
    requires IsRun(states, actions) && i < |states|
    ensures var r := states[i];
            && (forall t, u :: t in r.owner && u in r.owner && Running(r, t) && Running(r, u) && r.owner[t] == r.owner[u] ==> t == u)
            && (forall conv :: Refuses(r, conv) <==> exists t :: t in r.owner && Running(r, t) && r.owner[t] == conv)
  {
    RunsStayConsistent(states, actions, i);
    var r := states[i];
    forall conv | Refuses(r, conv) ensures exists t :: t in r.owner && Running(r, t) && r.owner[t] == conv {
      assert Running(r, r.turns[conv]);
    }
  }

  /** An old turn's cleanup, however late, removes no other turn. */
  lemma LateCleanupIsHarmless<T>(states: seq<Registry<T>>, actions: seq<Action<T>>, i: nat)
    requires IsRun(states, actions) && i < |actions| && actions[i].Cleanup?
    ensures forall conv :: conv in states[i].turns && states[i].turns[conv] != actions[i].t ==>
              conv in states[i + 1].turns && states[i + 1].turns[conv] == states[i].turns[conv]
    ensures forall conv :: Refuses(states[i], conv) <==> Refuses(states[i + 1], conv)
  {
    RunsStayConsistent(states, actions, i);
  }

  /** A turn that was cleaned up is never handed out again. */
  lemma {:induction false} CleanedUpIsForgotten<T>(states: seq<Registry<T>>, actions: seq<Action<T>>, i: nat, j: nat)
    requires IsRun(states, actions) && i < j < |states| && actions[i].Cleanup?
    ensures actions[i].t in states[j].owner
    ensures forall conv :: conv in states[j].turns ==> states[j].turns[conv] != actions[i].t
  {
    RunsStayConsistent(states, actions, j - 1);
    assert Enabled(states[j - 1], actions[j - 1]) && states[j] == Step(states[j - 1], actions[j - 1]);
    if i < j - 1 {
      CleanedUpIsForgotten(states, actions, i, j - 1);
    }
  }

  /** Until its own cleanup or the next Start in its conversation, a turn stays reachable through Get. */
  lemma {:induction false} TurnStaysReachable<T>(states: seq<Registry<T>>, actions: seq<Action<T>>, i: nat, j: nat, conv: int)
    requires IsRun(states, actions) && i <= j < |states| && conv in states[i].turns
    requires forall k :: i <= k < j ==> !(actions[k].Start? && actions[k].conv == conv)
    requires forall k :: i <= k < j ==> actions[k] != Cleanup(states[i].turns[conv])
    ensures conv in states[j].turns && states[j].turns[conv] == states[i].turns[conv]
  {
    if i < j {
      TurnStaysReachable(states, actions, i, j - 1, conv);
      RunsStayConsistent(states, actions, j - 1);
      assert states[j] == Step(states[j - 1], actions[j - 1]);
    }
  }

  /** The manager of the program; started is the set of turn objects it ever created. */
  class TurnManager {
    var turns: map<int, Turn>
    ghost var started: set<Turn>

    constructor ()
      ensures View() == Empty() && started == {}
    {
      turns := map[];
      started := {};
    }

    ghost function View(): Registry<Turn>
      reads this, started
    {
      Registry(turns, map t | t in started :: t.conversation, set t | t in started && t.finished)
    }

    /** Every indexed turn was started here, for its key, every running turn is indexed, and turns are safe. */
    ghost predicate Valid()
      reads this, started
    {
      AllSafe() && Consistent(View())
    }

    ghost predicate AllSafe()
      reads this, started
    {
      forall t :: t in started ==> Safe(t.State())
    }

    method Start(conv: int) returns (r: Option<Turn>)
      requires Valid()
      modifies this
      ensures Valid()
      ensures r.None? <==> Refuses(old(View()), conv)
      ensures r.None? ==> View() == old(View()) && started == old(started)
      ensures r.Some? ==> fresh(r.value) && r.value.State() == NEW_TURN && started == old(started) + {r.value}
      ensures r.Some? ==> View() == StartStep(old(View()), conv, r.value)
    {
      if conv in turns && !turns[conv].finished {
        return None;
      }
      var t := Launch(conv);
      r := Some(t);
    }

    method Launch(conv: int) returns (t: Turn)
      requires Valid() && !Refuses(View(), conv)
      modifies this
      ensures Valid() && fresh(t) && t.State() == NEW_TURN && started == old(started) + {t}
      ensures View() == StartStep(old(View()), conv, t)
    {
      t := new Turn(conv);
      StepKeepsConsistent(View(), Action.Start(conv, t));
      Enlist(t);
    }

    method Enlist(t: Turn)
      requires AllSafe() && Safe(t.State()) && !t.finished && t !in started && !Refuses(View(), t.conversation)
      modifies this
      ensures started == old(started) + {t} && View() == StartStep(old(View()), t.conversation, t) && AllSafe()
    {
      turns := turns[t.conversation := t];
      started := started + {t};
    }

    /** The end of the turn's goroutine. */
    method Finish(t: Turn)
      requires Valid() && t in started
      modifies t
      ensures Valid() && View() == EndStep(old(View()), t)
      ensures t.State() == FinishStep(old(t.State()))
    {
      StepKeepsConsistent(View(), End(t));
      StepKeepsSafe(t.State(), Turns.Action.Finish);
      t.MarkFinished();
      assert View() == EndStep(old(View()), t);
    }

    /** The timer that fires some time after the turn ended. */
    method Cleanup(t: Turn)
      requires Valid() && t in started && t.finished
      modifies this
      ensures Valid() && started == old(started) && View() == CleanupStep(old(View()), t)
    {
      StepKeepsConsistent(View(), Action.Cleanup(t));
      DropEntry(t);
    }

    method DropEntry(t: Turn)
      requires t in started && AllSafe()
      modifies this`turns
      ensures View() == CleanupStep(old(View()), t) && AllSafe()
    {
      if t.conversation in turns && turns[t.conversation] == t {
        turns := turns - {t.conversation};
      }
    }

    /** The turn handed out is one of this conversation, and a turn that runs in it is always the one handed out. */
    method Get(conv: int) returns (r: Option<Turn>)
      requires Valid()
      ensures r.Some? ==> r.value in started && r.value.conversation == conv
      ensures forall t :: t in started && !t.finished && t.conversation == conv ==> r == Some(t)
      ensures r.Some? <==> conv in View().turns
      ensures r.Some? ==> View().turns[conv] == r.value
    {
      assert forall t :: t in started && !t.finished ==> Running(View(), t);
      r := if conv in turns then Some(turns[conv]) else None;
    }
  }
}

/**
  The membership ledger: grants and revokes as serial transactions on the grant list and on one row
  per user. Times are integer ticks, UTC, and a day is a fixed number of ticks.
 */
module Membership {
  import opened Options

  const DAY := 86400

  datatype Status = Active | Expired | Refunded

  datatype Row = Row(status: Status, startedAt: int, endsAt: int, lastOrder: int)

  datatype Action = Activate | Renew | Restore | Revoke

  datatype Grant = Grant(user: int, order: int, action: Action, days: int, startsAt: int, endsAt: int, key: string)

  datatype Ledger = Ledger(grants: seq<Grant>, rows: map<int, Row>)

  const EMPTY_LEDGER := Ledger([], map[])

  predicate HasKey(grants: seq<Grant>, key: string) {
    exists i :: 0 <= i < |grants| && grants[i].key == key
  }

  predicate HasRevokeKey(grants: seq<Grant>, key: string) {
    exists i :: 0 <= i < |grants| && grants[i].key == key && grants[i].action == Revoke
  }

  datatype GrantRequest = GrantRequest(user: int, order: int, days: int, key: string, now: int)

  datatype RevokeRequest = RevokeRequest(user: int, order: int, key: string, now: int)

  /** Created; found under its key; or refused by the duration check of the table. */
  datatype GrantOutcome = Granted(grant: Grant) | AlreadyGranted | GrantRefused

  datatype RevokeOutcome = Revoked(grant: Grant) | AlreadyRevoked | NotLastOrder | RevokeRefused

  /** Action and interval of the next grant; only the row's end decides. */
  function NextGrant(l: Ledger, r: GrantRequest): Grant {
    var starts := if r.user in l.rows && l.rows[r.user].endsAt > r.now then l.rows[r.user].endsAt else r.now;
    var action := if r.user !in l.rows then Activate
                  else if l.rows[r.user].endsAt > r.now then Renew else Restore;
    Grant(r.user, r.order, action, r.days, starts, starts + r.days * DAY, r.key)
  }

  function GrantResult(l: Ledger, r: GrantRequest): GrantOutcome {
    if HasKey(l.grants, r.key) then AlreadyGranted
    else if r.days <= 0 then GrantRefused
    else Granted(NextGrant(l, r))
  }

  function GrantStep(l: Ledger, r: GrantRequest): Ledger {
    match GrantResult(l, r)
    case Granted(g) =>
      var started := if r.user in l.rows then l.rows[r.user].startedAt else g.startsAt;
      Ledger(l.grants + [g], l.rows[r.user := Row(Active, started, g.endsAt, r.order)])
    case _ => l
  }

  function RevokeResult(l: Ledger, r: RevokeRequest): RevokeOutcome {
    if HasRevokeKey(l.grants, r.key) then AlreadyRevoked
    else if r.user !in l.rows || l.rows[r.user].lastOrder != r.order then NotLastOrder
    else if HasKey(l.grants, r.key) then RevokeRefused
    else Revoked(Grant(r.user, r.order, Revoke, 1, r.now, r.now, r.key))
  }

  function RevokeStep(l: Ledger, r: RevokeRequest): Ledger {
    match RevokeResult(l, r)
    case Revoked(g) => Ledger(l.grants + [g], l.rows[r.user := l.rows[r.user].(status := Refunded, endsAt := r.now)])
    case _ => l
  }

  predicate ActiveAt(l: Ledger, user: int, now: int) {
    user in l.rows && l.rows[user].status == Active && l.rows[user].endsAt > now
  }

  /** The write an activity check may leave behind. */
  function CheckStep(l: Ledger, user: int, now: int): Ledger {
    if user in l.rows && l.rows[user].status == Active && l.rows[user].endsAt <= now
    then l.(rows := l.rows[user := l.rows[user].(status := Expired)]) else l
  }

  /** The status reported to readers: an active row past its end reads as expired. */
  function ReportedStatus(l: Ledger, user: int, now: int): Option<Status> {
    if user !in l.rows then None
    else if l.rows[user].status == Active && l.rows[user].endsAt <= now then Some(Expired)
    else Some(l.rows[user].status)
  }

  /** The tables and their transactions. */
  class MembershipStore {
    var grants: seq<Grant>
    var rows: map<int, Row>

    constructor ()
      ensures State() == EMPTY_LEDGER
    {
      grants, rows := [], map[];
    }

    function State(): Ledger
      reads this
    {
      Ledger(grants, rows)
    }

    method GrantMembership(r: GrantRequest) returns (outcome: GrantOutcome)
      modifies this
      ensures State() == GrantStep(old(State()), r) && outcome == GrantResult(old(State()), r)
    {
      if HasKey(grants, r.key) {
        return AlreadyGranted;
      }
      var startsAt := r.now;
      var action := Activate;
      if r.user in rows && rows[r.user].endsAt > r.now {
        startsAt := rows[r.user].endsAt;
        action := Renew;
      } else if r.user in rows {
        action := Restore;
      }
      if r.days <= 0 {
        return GrantRefused;
      }
      var g := Grant(r.user, r.order, action, r.days, startsAt, startsAt + r.days * DAY, r.key);
      var startedAt := if r.user in rows then rows[r.user].startedAt else startsAt;
      grants := grants + [g];
      rows := rows[r.user := Row(Active, startedAt, g.endsAt, r.order)];
      outcome := Granted(g);
    }

    method RevokeMembershipForOrder(r: RevokeRequest) returns (outcome: RevokeOutcome)
      modifies this
      ensures State() == RevokeStep(old(State()), r) && outcome == RevokeResult(old(State()), r)
    {
      if HasRevokeKey(grants, r.key) {
        return AlreadyRevoked;
      }
      if r.user !in rows || rows[r.user].lastOrder != r.order {
        return NotLastOrder;
      }
      if HasKey(grants, r.key) {
        return RevokeRefused;
      }
      var g := Grant(r.user, r.order, Revoke, 1, r.now, r.now, r.key);
      grants := grants + [g];
      rows := rows[r.user := rows[r.user].(status := Refunded, endsAt := r.now)];
      outcome := Revoked(g);
    }

    method HasActiveMembership(user: int, now: int) returns (active: bool)
      modifies this
      ensures State() == CheckStep(old(State()), user, now) && active == ActiveAt(old(State()), user, now)
    {
      active := user in rows && rows[user].status == Active && rows[user].endsAt > now;
      if !active && user in rows && rows[user].status == Active && rows[user].endsAt <= now {
        rows := rows[user := rows[user].(status := Expired)];
      }
    }

    method GetCurrentStatus(user: int, now: int) returns (status: Option<Status>)
      ensures status == ReportedStatus(State(), user, now)
      ensures status == Some(Active) <==> ActiveAt(State(), user, now)
    {
      if user !in rows {
        return None;
      }
      var m := rows[user];
      if m.status == Active && !(m.endsAt > now) {
        m := m.(status := Expired);
      }
      status := Some(m.status);
    }
  }

  // ---- serial runs under a monotone clock ----

  datatype Event = GrantEvent(g: GrantRequest) | RevokeEvent(r: RevokeRequest) | CheckEvent(user: int, at: int)

  function Time(e: Event): int {
    match e case GrantEvent(g) => g.now case RevokeEvent(r) => r.now case CheckEvent(_, at) => at
  }

  function Step(l: Ledger, e: Event): Ledger {
    match e
    case GrantEvent(g) => GrantStep(l, g)
    case RevokeEvent(r) => RevokeStep(l, r)
    case CheckEvent(user, at) => CheckStep(l, user, at)
  }

  function Run(events: seq<Event>): Ledger {
    if events == [] then EMPTY_LEDGER else Step(Run(events[..|events| - 1]), events[|events| - 1])
  }

  /** Times never run backwards, and all lie at or before now. */
  ghost predicate ClockedUpTo(events: seq<Event>, now: int) {
    && (forall i, j :: 0 <= i < j < |events| ==> Time(events[i]) <= Time(events[j]))
    && (forall i :: 0 <= i < |events| ==> Time(events[i]) <= now)
  }

  /** A user's grants since the user's last effective revoke, oldest first. */
  function Live(grants: seq<Grant>, user: int): seq<Grant> {
    if grants == [] then []
    else
      var init, g := Live(grants[..|grants| - 1], user), grants[|grants| - 1];
      if g.user != user then init else if g.action == Revoke then [] else init + [g]
  }

  predicate Covers(g: Grant, t: int) { g.startsAt <= t < g.endsAt }

  predicate CoveredAt(live: seq<Grant>, t: int) { exists i :: 0 <= i < |live| && Covers(live[i], t) }

  function Max(a: int, b: int): int { if a < b then b else a }

  /** The unexpired part of an interval at time t. */
  function Unexpired(g: Grant, t: int): int { Max(0, g.endsAt - Max(g.startsAt, t)) }

  function Remaining(live: seq<Grant>, t: int): int {
    if live == [] then 0 else Remaining(live[..|live| - 1], t) + Unexpired(live[|live| - 1], t)
  }

  /** Intervals are exact, in order, without overlap, and start at their predecessor's end or by now. */
  ghost predicate Chained(live: seq<Grant>, now: int) {
    && (forall i :: 0 <= i < |live| ==>
          live[i].action != Revoke && live[i].days > 0 && live[i].endsAt == live[i].startsAt + live[i].days * DAY)
    && (forall i, j :: 0 <= i && j == i + 1 && j < |live| ==> Follows(live[i], live[j], now))
    && (live != [] ==> live[0].startsAt <= now)
  }

  /** A grant starts no earlier than its predecessor ends, and later than now only if right at that end. */
  predicate Follows(g: Grant, next: Grant, now: int) {
    g.endsAt <= next.startsAt && (next.startsAt <= now || next.startsAt == g.endsAt)
  }

  /** The row repeats what the live grants say. */
  ghost predicate RowAgrees(l: Ledger, user: int, now: int) {
    var live := Live(l.grants, user);
    && Chained(live, now)
    && (live != [] ==> (
          && user in l.rows && l.rows[user].endsAt == live[|live| - 1].endsAt
          && l.rows[user].lastOrder == live[|live| - 1].order
          && (l.rows[user].status == Active || (l.rows[user].status == Expired && l.rows[user].endsAt <= now))))
    && (live == [] && user in l.rows ==> l.rows[user].status == Refunded && l.rows[user].endsAt <= now)
  }

  lemma LiveAppend(grants: seq<Grant>, g: Grant, user: int)
    ensures Live(grants + [g], user) ==
            if g.user != user then Live(grants, user) else if g.action == Revoke then [] else Live(grants, user) + [g]
  {
    assert (grants + [g])[..|grants|] == grants;
  }

  lemma ChainedInit(live: seq<Grant>, now: int)
    requires Chained(live, now) && live != []
    ensures Chained(live[..|live| - 1], now)
  {
    var init := live[..|live| - 1];
    assert forall i :: 0 <= i < |init| ==> init[i] == live[i];
  }

  lemma ChainedLater(live: seq<Grant>, now: int, later: int)
    requires Chained(live, now) && now <= later
    ensures Chained(live, later)
  {}

  lemma ChainedExtend(live: seq<Grant>, g: Grant, now: int)
    requires Chained(live, now)
    requires g.action != Revoke && g.days > 0 && g.endsAt == g.startsAt + g.days * DAY
    requires g.startsAt == if live != [] && live[|live| - 1].endsAt > now then live[|live| - 1].endsAt else now
    ensures Chained(live + [g], now)
  {
    var all := live + [g];
    assert forall i :: 0 <= i < |live| ==> all[i] == live[i];
  }

  lemma GrantAgrees(l: Ledger, r: GrantRequest, user: int)
    requires RowAgrees(l, user, r.now)
    ensures RowAgrees(GrantStep(l, r), user, r.now)
  {
    if GrantResult(l, r).Granted? {
      LiveAppend(l.grants, NextGrant(l, r), user);
      if r.user == user { OwnGrantAgrees(l, r); }
    }
  }

  lemma OwnGrantAgrees(l: Ledger, r: GrantRequest)
    requires RowAgrees(l, r.user, r.now) && GrantResult(l, r).Granted?
    ensures RowAgrees(GrantStep(l, r), r.user, r.now)
  {
    var live, g := Live(l.grants, r.user), NextGrant(l, r);
    LiveAppend(l.grants, g, r.user);
    ChainedExtend(live, g, r.now);
    assert (live + [g])[|live|] == g;
  }

  lemma RevokeAgrees(l: Ledger, r: RevokeRequest, user: int)
    requires RowAgrees(l, user, r.now)
    ensures RowAgrees(RevokeStep(l, r), user, r.now)
  {
    if RevokeResult(l, r).Revoked? { LiveAppend(l.grants, RevokeResult(l, r).grant, user); }
  }

  lemma StepAgrees(l: Ledger, e: Event, user: int, now: int)
    requires RowAgrees(l, user, now) && now <= Time(e)
    ensures RowAgrees(Step(l, e), user, Time(e))
  {
    LaterAgrees(l, user, now, Time(e));
    match e
    case GrantEvent(r) => GrantAgrees(l, r, user);
    case RevokeEvent(r) => RevokeAgrees(l, r, user);
    case CheckEvent(_, _) =>
  }

  lemma LaterAgrees(l: Ledger, user: int, now: int, later: int)
    requires RowAgrees(l, user, now) && now <= later
    ensures RowAgrees(l, user, later)
  {
    ChainedLater(Live(l.grants, user), now, later);
  }

  /** In every clocked run every user's row and grants agree. */
  lemma {:induction false} RunAgrees(events: seq<Event>, user: int, now: int)
    requires ClockedUpTo(events, now)
    ensures RowAgrees(Run(events), user, now)
  {
    if events == [] {
    } else {
      var init, e := events[..|events| - 1], events[|events| - 1];
      RunAgrees(init, user, Time(e));
      StepAgrees(Run(init), e, user, Time(e));
      LaterAgrees(Run(events), user, Time(e), now);
    }
  }

  /** Grant intervals between revokes are exactly their duration long and pairwise disjoint. */
  lemma GrantsAreDisjoint(events: seq<Event>, user: int, now: int, i: nat, j: nat)
    requires ClockedUpTo(events, now) && i < j < |Live(Run(events).grants, user)|
    ensures var live := Live(Run(events).grants, user);
            && live[i].endsAt - live[i].startsAt == live[i].days * DAY > 0
            && live[i].endsAt <= live[j].startsAt
  {
    RunAgrees(events, user, now);
    ChainedOrder(Live(Run(events).grants, user), now, i, j);
  }

  lemma {:induction false} ChainedOrder(live: seq<Grant>, now: int, i: nat, j: nat)
    requires Chained(live, now) && i < j < |live|
    ensures live[i].endsAt <= live[j].startsAt
  {
    if i + 1 < j { ChainedOrder(live, now, i, j - 1); }
  }

  /** From now on, the unexpired parts of the live grants add up to the time until the last end. */
  lemma {:induction false} ChainedRemaining(live: seq<Grant>, now: int, t: int)
    requires Chained(live, now) && now <= t
    ensures Remaining(live, t) == if live == [] then 0 else Max(0, live[|live| - 1].endsAt - t)
  {
    if live == [] {
    } else {
      var init, last := live[..|live| - 1], live[|live| - 1];
      ChainedInit(live, now);
      ChainedRemaining(init, now, t);
      if init != [] {
        assert init[|init| - 1] == live[|live| - 2];
        assert Follows(live[|live| - 2], last, now);
      }
    }
  }

  lemma {:induction false} CoveredWhileRemaining(live: seq<Grant>, now: int, t: int)
    requires Chained(live, now) && now <= t
    ensures CoveredAt(live, t) <==> live != [] && live[|live| - 1].endsAt > t
  {
    if live == [] {
    } else {
      var init, last := live[..|live| - 1], live[|live| - 1];
      ChainedInit(live, now);
      CoveredWhileRemaining(init, now, t);
      if init != [] {
        assert init[|init| - 1] == live[|live| - 2];
        assert Follows(live[|live| - 2], last, now);
      }
      if last.endsAt > t && !Covers(last, t) {
        var i :| 0 <= i < |init| && Covers(init[i], t);
        assert live[i] == init[i];
      }
      if i :| 0 <= i < |live| && Covers(live[i], t) {
        if i < |init| { assert init[i] == live[i]; }
      }
    }
  }

  /** A user is active exactly when a grant made since the last effective revoke covers the time. */
  lemma ActiveIffCovered(events: seq<Event>, user: int, t: int)
    requires ClockedUpTo(events, t)
    ensures var live := Live(Run(events).grants, user);
            ActiveAt(Run(events), user, t) <==> CoveredAt(live, t)
  {
    RunAgrees(events, user, t);
    CoveredWhileRemaining(Live(Run(events).grants, user), t, t);
  }

  /** Paid time is neither lost nor counted twice: the row's remaining time is the sum of the unexpired parts. */
  lemma RemainingTimeIsConserved(events: seq<Event>, user: int, t: int)
    requires ClockedUpTo(events, t)
    ensures var l := Run(events);
            Remaining(Live(l.grants, user), t) == if ActiveAt(l, user, t) then l.rows[user].endsAt - t else 0
  {
    RunAgrees(events, user, t);
    ChainedRemaining(Live(Run(events).grants, user), t, t);
  }

  /** A grant adds exactly its duration to the remaining time. */
  lemma GrantAddsItsDuration(events: seq<Event>, r: GrantRequest)
    requires ClockedUpTo(events, r.now) && GrantResult(Run(events), r).Granted?
    ensures var l := Run(events);
            Remaining(Live(GrantStep(l, r).grants, r.user), r.now) == Remaining(Live(l.grants, r.user), r.now) + r.days * DAY
  {
    var l := Run(events);
    GrantedIsLive(l, r);
    RemainingAppend(Live(l.grants, r.user), NextGrant(l, r), r.now);
    NextGrantIsUnexpired(l, r);
  }

  lemma GrantedIsLive(l: Ledger, r: GrantRequest)
    requires GrantResult(l, r).Granted?
    ensures r.days > 0 && Live(GrantStep(l, r).grants, r.user) == Live(l.grants, r.user) + [NextGrant(l, r)]
  {
    LiveAppend(l.grants, NextGrant(l, r), r.user);
  }

  lemma NextGrantIsUnexpired(l: Ledger, r: GrantRequest)
    requires r.days > 0
    ensures Unexpired(NextGrant(l, r), r.now) == r.days * DAY
  {}

  lemma RemainingAppend(live: seq<Grant>, g: Grant, t: int)
    ensures Remaining(live + [g], t) == Remaining(live, t) + Unexpired(g, t)
  {
    assert (live + [g])[..|live|] == live;
  }

  // ---- revokes ----

  /** The unexpired time bought with other orders. */
  function OthersRemaining(live: seq<Grant>, order: int, t: int): int {
    if live == [] then 0
    else
      var g := live[|live| - 1];
      OthersRemaining(live[..|live| - 1], order, t) + if g.order == order then 0 else Unexpired(g, t)
  }

  lemma {:induction false} OthersSplit(live: seq<Grant>, order: int, t: int)
    ensures 0 <= OthersRemaining(live, order, t) <= Remaining(live, t)
    ensures OthersRemaining(live, order, t) == 0
       <==> forall i :: 0 <= i < |live| && live[i].order != order ==> live[i].endsAt <= t || live[i].endsAt <= live[i].startsAt
  {
    if live == [] {
    } else {
      var init := live[..|live| - 1];
      OthersSplit(init, order, t);
      assert forall i :: 0 <= i < |init| ==> init[i] == live[i];
    }
  }

  /** A revoke for an order that is not the row's last one changes nothing. */
  lemma RevokeOfOlderOrderIsNoOp(l: Ledger, r: RevokeRequest)
    requires r.user in l.rows ==> l.rows[r.user].lastOrder != r.order
    ensures RevokeStep(l, r) == l
  {}

  /**
    While a user has live grants, a revoke does something exactly when its key is new and its order is
    that of the latest of them. With none left it changes no answer about activity.
   */
  lemma RevokeTakesLatestOrderIff(events: seq<Event>, r: RevokeRequest)
    requires ClockedUpTo(events, r.now)
    ensures var l, l' := Run(events), RevokeStep(Run(events), r);
            var live := Live(l.grants, r.user);
            && (live != [] ==> (l' != l <==> !HasKey(l.grants, r.key) && live[|live| - 1].order == r.order))
            && (live == [] ==> forall user, t :: t >= r.now ==> ActiveAt(l', user, t) == ActiveAt(l, user, t))
  {
    var l := Run(events);
    RunAgrees(events, r.user, r.now);
    if HasRevokeKey(l.grants, r.key) {
      var i :| 0 <= i < |l.grants| && l.grants[i].key == r.key && l.grants[i].action == Revoke;
      assert HasKey(l.grants, r.key);
    }
    if r.user in l.rows && l.rows[r.user].lastOrder != r.order { RevokeOfOlderOrderIsNoOp(l, r); }
    if RevokeResult(l, r).Revoked? { assert |RevokeStep(l, r).grants| == |l.grants| + 1; }
  }

  /**
    An effective revoke ends everything at once. It takes away no more than the refunded order's own
    time exactly when no other order has unexpired time left.
   */
  lemma RevokeForfeits(events: seq<Event>, r: RevokeRequest)
    requires ClockedUpTo(events, r.now) && RevokeResult(Run(events), r).Revoked?
    ensures var l, l' := Run(events), RevokeStep(Run(events), r);
            var live := Live(l.grants, r.user);
            && (forall t :: !ActiveAt(l', r.user, t))
            && Live(l'.grants, r.user) == [] && Remaining(Live(l'.grants, r.user), r.now) == 0
            && (Remaining(Live(l'.grants, r.user), r.now) == OthersRemaining(live, r.order, r.now)
                <==> forall i :: 0 <= i < |live| && live[i].order != r.order ==> live[i].endsAt <= r.now)
  {
    var l := Run(events);
    RunAgrees(events, r.user, r.now);
    LiveAppend(l.grants, RevokeResult(l, r).grant, r.user);
    OthersSplit(Live(l.grants, r.user), r.order, r.now);
  }

  /** An active membership is ended by a revoke exactly when its key is new and its order is that of the latest live grant. */
  lemma RevokeEndsMembershipIff(events: seq<Event>, r: RevokeRequest)
    requires ClockedUpTo(events, r.now) && ActiveAt(Run(events), r.user, r.now)
    ensures var l, l' := Run(events), RevokeStep(Run(events), r);
            var live := Live(l.grants, r.user);
            && live != []
            && (!ActiveAt(l', r.user, r.now) <==> !HasKey(l.grants, r.key) && live[|live| - 1].order == r.order)
            && (ActiveAt(l', r.user, r.now) ==> l' == l)
  {
    ActiveIffCovered(events, r.user, r.now);
    RevokeTakesLatestOrderIff(events, r);
    if RevokeResult(Run(events), r).Revoked? { RevokeForfeits(events, r); }
  }

  const FIRST_PURCHASE := GrantEvent(GrantRequest(1, 10, 30, "a", 0))
  const RENEWAL := GrantEvent(GrantRequest(1, 11, 30, "b", 0))
  const FIRST_GRANT := Grant(1, 10, Activate, 30, 0, 30 * DAY, "a")
  const RENEWAL_GRANT := Grant(1, 11, Renew, 30, 30 * DAY, 60 * DAY, "b")

  lemma RenewedRun()
    ensures Run([FIRST_PURCHASE, RENEWAL]) == Ledger([FIRST_GRANT, RENEWAL_GRANT], map[1 := Row(Active, 0, 60 * DAY, 11)])
  {
    assert [FIRST_PURCHASE, RENEWAL][..1] == [FIRST_PURCHASE] && [FIRST_PURCHASE][..0] == [];
    assert Run([]) == EMPTY_LEDGER;
    assert Run([FIRST_PURCHASE]) == Ledger([FIRST_GRANT], map[1 := Row(Active, 0, 30 * DAY, 10)]);
  }

  lemma RenewedLive()
    ensures Live([FIRST_GRANT, RENEWAL_GRANT], 1) == [FIRST_GRANT, RENEWAL_GRANT]
    ensures OthersRemaining([FIRST_GRANT, RENEWAL_GRANT], 11, DAY) == 29 * DAY
  {
    assert [FIRST_GRANT, RENEWAL_GRANT][..1] == [FIRST_GRANT] && [FIRST_GRANT][..0] == [];
    assert Live([FIRST_GRANT], 1) == [FIRST_GRANT];
    assert OthersRemaining([FIRST_GRANT], 11, DAY) == 29 * DAY;
  }

  /** A refund of the renewal takes the rest of the first purchase with it. */
  lemma RenewalRefundLosesEarlierTime()
    ensures var events, r := [FIRST_PURCHASE, RENEWAL], RevokeRequest(1, 11, "c", DAY);
            && ClockedUpTo(events, DAY) && RevokeResult(Run(events), r).Revoked?
            && OthersRemaining(Live(Run(events).grants, 1), 11, DAY) == 29 * DAY
            && Remaining(Live(RevokeStep(Run(events), r).grants, 1), DAY) == 0
  {
    RenewedRun();
    RenewedLive();
    var l, r := Run([FIRST_PURCHASE, RENEWAL]), RevokeRequest(1, 11, "c", DAY);
    assert RevokeResult(l, r).Revoked?;
    LiveAppend(l.grants, RevokeResult(l, r).grant, 1);
  }

  // ---- the lazy write is invisible ----

  /** Equal up to an expiry that the clock already implies. */
  ghost predicate SameButExpired(a: Ledger, b: Ledger, now: int) {
    && a.grants == b.grants && a.rows.Keys == b.rows.Keys
    && forall user :: user in a.rows ==>
         var m, n := a.rows[user], b.rows[user];
         m == n || (m.endsAt <= now && m.status == Expired && n == m.(status := Active))
  }

  function WithoutChecks(events: seq<Event>): seq<Event> {
    if events == [] then []
    else WithoutChecks(events[..|events| - 1]) + if events[|events| - 1].CheckEvent? then [] else [events[|events| - 1]]
  }

  lemma StepSimulates(a: Ledger, b: Ledger, e: Event, now: int)
    requires SameButExpired(a, b, now) && now <= Time(e)
    ensures SameButExpired(Step(a, e), if e.CheckEvent? then b else Step(b, e), Time(e))
  {}

  lemma {:induction false} ChecksSimulate(events: seq<Event>, now: int)
    requires ClockedUpTo(events, now)
    ensures SameButExpired(Run(events), Run(WithoutChecks(events)), now)
  {
    if events == [] {
    } else {
      var init, e := events[..|events| - 1], events[|events| - 1];
      ChecksSimulate(init, Time(e));
      StepSimulates(Run(init), Run(WithoutChecks(init)), e, Time(e));
      if !e.CheckEvent? {
        var w := WithoutChecks(init);
        assert (w + [e])[..|w|] == w;
      } else {
        assert WithoutChecks(events) == WithoutChecks(init);
      }
    }
  }

  /**
    Runs with and without the activity checks' writes give the same later answers: activity, reported
    status, and action, dates and outcome of every later grant and revoke.
   */
  lemma LazyExpiryIsInvisible(events: seq<Event>, user: int, now: int, g: GrantRequest, r: RevokeRequest)
    requires ClockedUpTo(events, now) && now <= g.now
    ensures var with, without := Run(events), Run(WithoutChecks(events));
            && ActiveAt(with, user, now) == ActiveAt(without, user, now)
            && ReportedStatus(with, user, now) == ReportedStatus(without, user, now)
            && GrantResult(with, g) == GrantResult(without, g)
            && RevokeResult(with, r) == RevokeResult(without, r)
            && with.grants == without.grants
  {
    ChecksSimulate(events, now);
  }

  // ---- replay ----

  lemma {:induction false} KeysPersist(events: seq<Event>, n: nat, key: string)
    requires n <= |events| && HasKey(Run(events[..n]).grants, key)
    ensures HasKey(Run(events).grants, key)
    decreases |events|
  {
    if n < |events| {
      var init, e := events[..|events| - 1], events[|events| - 1];
      assert init[..n] == events[..n];
      KeysPersist(init, n, key);
      var l := Run(init);
      var i :| 0 <= i < |l.grants| && l.grants[i].key == key;
      assert Step(l, e).grants[i] == l.grants[i];
    } else {
      assert events[..n] == events;
    }
  }

  lemma NewGrantHasNewKey(l: Ledger, e: Event)
    ensures var grants := Step(l, e).grants;
            grants == l.grants || (
              && |grants| == |l.grants| + 1 && l.grants <= grants
              && forall i :: 0 <= i < |l.grants| ==> l.grants[i].key != grants[|l.grants|].key)
  {
    var grants := Step(l, e).grants;
    if grants != l.grants {
      assert grants == l.grants + [grants[|l.grants|]];
      assert !HasKey(l.grants, grants[|l.grants|].key);
    }
  }

  ghost predicate UniqueKeys(grants: seq<Grant>) {
    forall i, j :: 0 <= i < j < |grants| ==> grants[i].key != grants[j].key
  }

  /** No two rows of the grant table share a key, whatever the calls were. */
  lemma {:induction false} KeysAreUnique(events: seq<Event>)
    ensures UniqueKeys(Run(events).grants)
  {
    if events == [] {
    } else {
      var init := events[..|events| - 1];
      KeysAreUnique(init);
      NewGrantHasNewKey(Run(init), events[|events| - 1]);
      var before, after := Run(init).grants, Run(events).grants;
      assert forall i :: 0 <= i < |before| ==> before[i] == after[i];
    }
  }

  /** Every grant row comes from a grant call with its key, order and user. */
  lemma {:induction false} GrantHasCall(events: seq<Event>, i: nat) returns (k: nat)
    requires i < |Run(events).grants| && Run(events).grants[i].action != Revoke
    ensures k < |events| && events[k].GrantEvent?
    ensures var g := Run(events).grants[i]; events[k].g.key == g.key && events[k].g.order == g.order && events[k].g.user == g.user
  {
    var init := events[..|events| - 1];
    if i < |Run(init).grants| {
      k := GrantHasCall(init, i);
    } else {
      k := |events| - 1;
    }
  }

  predicate GrantsWith(e: Event, key: string) { e.GrantEvent? && e.g.key == key }

  /** Drops every grant call with this key except the one that created the grant. */
  function EraseReplays(events: seq<Event>, key: string): seq<Event> {
    if events == [] then []
    else
      var init, e := events[..|events| - 1], events[|events| - 1];
      EraseReplays(init, key)
      + if GrantsWith(e, key) && !GrantResult(Run(init), e.g).Granted? then [] else [e]
  }

  function CountGrants(events: seq<Event>, key: string): nat {
    if events == [] then 0
    else CountGrants(events[..|events| - 1], key) + if GrantsWith(events[|events| - 1], key) then 1 else 0
  }

  lemma {:induction false} ErasedRunIsSame(events: seq<Event>, key: string)
    ensures Run(EraseReplays(events, key)) == Run(events)
  {
    if events == [] {
    } else {
      var init, e := events[..|events| - 1], events[|events| - 1];
      ErasedRunIsSame(init, key);
      var erased := EraseReplays(init, key);
      if GrantsWith(e, key) && !GrantResult(Run(init), e.g).Granted? {
        assert EraseReplays(events, key) == erased;
      } else {
        assert (erased + [e])[..|erased|] == erased;
      }
    }
  }

  lemma CountAppend(events: seq<Event>, e: Event, key: string)
    ensures CountGrants(events + [e], key) == CountGrants(events, key) + if GrantsWith(e, key) then 1 else 0
  {
    assert (events + [e])[..|events|] == events;
  }

  /** A key stays in the table over a step, and a granted one is in it afterwards. */
  lemma StepKeepsKey(l: Ledger, e: Event, key: string)
    requires HasKey(l.grants, key) || (GrantsWith(e, key) && GrantResult(l, e.g).Granted?)
    ensures HasKey(Step(l, e).grants, key)
  {
    if HasKey(l.grants, key) {
      var i :| 0 <= i < |l.grants| && l.grants[i].key == key;
      assert Step(l, e).grants[i] == l.grants[i];
    } else {
      assert Step(l, e).grants[|l.grants|].key == key;
    }
  }

  lemma {:induction false} ErasedGrantsOnce(events: seq<Event>, key: string)
    ensures var n := CountGrants(EraseReplays(events, key), key);
            n <= 1 && (n == 1 ==> HasKey(Run(events).grants, key))
  {
    if events == [] {
    } else {
      var init, e := events[..|events| - 1], events[|events| - 1];
      ErasedGrantsOnce(init, key);
      var erased, l := EraseReplays(init, key), Run(init);
      if HasKey(l.grants, key) || (GrantsWith(e, key) && GrantResult(l, e.g).Granted?) { StepKeepsKey(l, e, key); }
      if GrantsWith(e, key) && !GrantResult(l, e.g).Granted? {
        assert EraseReplays(events, key) == erased;
      } else {
        CountAppend(erased, e, key);
      }
    }
  }

  lemma {:induction false} ErasedIsPart(events: seq<Event>, key: string)
    ensures forall e :: e in EraseReplays(events, key) ==> e in events
  {
    if events == [] {
    } else {
      ErasedIsPart(events[..|events| - 1], key);
      assert events == events[..|events| - 1] + [events[|events| - 1]];
    }
  }

  /**
    However often one key is granted again, at whatever times and however interleaved with other
    events, grants and rows are those of the run with all but its first successful grant deleted.
   */
  lemma ReplaysEraseToOne(events: seq<Event>, key: string)
    ensures var erased := EraseReplays(events, key);
            && Run(erased) == Run(events)
            && CountGrants(erased, key) <= 1
            && (CountGrants(erased, key) == 1 ==> HasKey(Run(events).grants, key))
            && (forall e :: e in erased ==> e in events)
  {
    ErasedRunIsSame(events, key);
    ErasedGrantsOnce(events, key);
    ErasedIsPart(events, key);
  }

  // ---- what rows, actions and answers mean ----

  ghost predicate EverGranted(grants: seq<Grant>, user: int) { exists i :: 0 <= i < |grants| && grants[i].user == user }

  /** A user has a row exactly when there is a grant, and the row starts where the first grant started. */
  ghost predicate RowStarts(l: Ledger, user: int) {
    && (user in l.rows <==> EverGranted(l.grants, user))
    && (user in l.rows ==> exists i :: 0 <= i < |l.grants| && IsFirstOf(l.grants, i, user) && l.rows[user].startedAt == l.grants[i].startsAt)
  }

  ghost predicate IsFirstOf(grants: seq<Grant>, i: nat, user: int) {
    i < |grants| && grants[i].user == user && forall j :: 0 <= j < i ==> grants[j].user != user
  }

  lemma {:induction false} FirstOfAppend(grants: seq<Grant>, g: Grant, user: int)
    ensures EverGranted(grants + [g], user) <==> EverGranted(grants, user) || g.user == user
    ensures forall i :: 0 <= i < |grants| && IsFirstOf(grants, i, user) ==> IsFirstOf(grants + [g], i, user)
    ensures !EverGranted(grants, user) && g.user == user ==> IsFirstOf(grants + [g], |grants|, user)
  {
    var all := grants + [g];
    assert all[|grants|] == g;
    if EverGranted(grants, user) {
      var i :| 0 <= i < |grants| && grants[i].user == user;
      assert all[i].user == user;
    }
  }

  lemma {:induction false} StepKeepsStart(l: Ledger, e: Event, user: int)
    requires RowStarts(l, user)
    ensures RowStarts(Step(l, e), user)
  {
    var grants := Step(l, e).grants;
    if grants != l.grants {
      FirstOfAppend(l.grants, grants[|l.grants|], user);
      assert grants == l.grants + [grants[|l.grants|]];
      if EverGranted(l.grants, user) {
        var i :| 0 <= i < |l.grants| && IsFirstOf(l.grants, i, user) && l.rows[user].startedAt == l.grants[i].startsAt;
        assert IsFirstOf(grants, i, user) && grants[i] == l.grants[i];
      } else if grants[|l.grants|].user == user {
        assert IsFirstOf(grants, |l.grants|, user);
      }
    }
  }

  /** In every run a membership starts where its user's first grant started, however often it was renewed since. */
  lemma {:induction false} StartIsFirstGrant(events: seq<Event>, user: int)
    ensures RowStarts(Run(events), user)
  {
    if events == [] {
    } else {
      StartIsFirstGrant(events[..|events| - 1], user);
      StepKeepsStart(Run(events[..|events| - 1]), events[|events| - 1], user);
    }
  }

  lemma RowRunsIffActive(events: seq<Event>, user: int, t: int)
    requires ClockedUpTo(events, t)
    ensures var l := Run(events); user in l.rows && l.rows[user].endsAt > t <==> ActiveAt(l, user, t)
  {
    RunAgrees(events, user, t);
  }

  /** A grant activates a user without grants, renews an active membership, and restores any other. */
  lemma {:induction false} ActionMeans(events: seq<Event>, r: GrantRequest)
    requires ClockedUpTo(events, r.now) && GrantResult(Run(events), r).Granted?
    ensures var l, action := Run(events), GrantResult(Run(events), r).grant.action;
            && (action == Activate <==> !EverGranted(l.grants, r.user))
            && (action == Renew <==> CoveredAt(Live(l.grants, r.user), r.now))
            && (action == Restore <==> EverGranted(l.grants, r.user) && !CoveredAt(Live(l.grants, r.user), r.now))
  {
    RowRunsIffActive(events, r.user, r.now);
    StartIsFirstGrant(events, r.user);
    ActiveIffCovered(events, r.user, r.now);
  }

  /** What is reported: nothing before the first grant, active while covered, refunded after a revoke, expired otherwise. */
  lemma {:induction false} StatusMeans(events: seq<Event>, user: int, t: int)
    requires ClockedUpTo(events, t)
    ensures var l, status := Run(events), ReportedStatus(Run(events), user, t);
            var live := Live(l.grants, user);
            && (status == None <==> !EverGranted(l.grants, user))
            && (status == Some(Active) <==> CoveredAt(live, t))
            && (status == Some(Expired) <==> live != [] && !CoveredAt(live, t))
            && (status == Some(Refunded) <==> EverGranted(l.grants, user) && live == [])
  {
    RunAgrees(events, user, t);
    StartIsFirstGrant(events, user);
    ActiveIffCovered(events, user, t);
  }

  /** After an activity check the stored status is active exactly while a live grant covers the time. */
  lemma {:induction false} CheckTellsTruth(events: seq<Event>, user: int, t: int)
    requires ClockedUpTo(events, t)
    ensures var l, l' := Run(events), CheckStep(Run(events), user, t);
            && l'.grants == l.grants && l'.rows.Keys == l.rows.Keys
            && (forall u :: u in l.rows && u != user ==> l'.rows[u] == l.rows[u])
            && (user in l'.rows ==>
                  && (l'.rows[user].status == Active <==> CoveredAt(Live(l.grants, user), t))
                  && l'.rows[user].endsAt == l.rows[user].endsAt && l'.rows[user].lastOrder == l.rows[user].lastOrder)
  {
    ActiveIffCovered(events, user, t);
  }

  /** The answers to grants and revokes, in terms of the grants so far. */
  lemma {:induction false} OutcomesMean(events: seq<Event>, g: GrantRequest, r: RevokeRequest)
    requires ClockedUpTo(events, r.now)
    ensures var l, granted, revoked := Run(events), GrantResult(Run(events), g), RevokeResult(Run(events), r);
            var live, used := Live(l.grants, r.user), exists i :: 0 <= i < |l.grants| && l.grants[i].key == r.key;
            && (granted == AlreadyGranted <==> exists i :: 0 <= i < |l.grants| && l.grants[i].key == g.key)
            && (granted == GrantRefused <==> g.days <= 0 && forall i :: 0 <= i < |l.grants| ==> l.grants[i].key != g.key)
            && (revoked == AlreadyRevoked <==> exists i :: 0 <= i < |l.grants| && l.grants[i].key == r.key && l.grants[i].action == Revoke)
            && (live != [] && revoked != AlreadyRevoked ==>
                  && (revoked == NotLastOrder <==> live[|live| - 1].order != r.order)
                  && (revoked == RevokeRefused <==> live[|live| - 1].order == r.order && used)
                  && (revoked.Revoked? <==> live[|live| - 1].order == r.order && !used)
                  && (revoked.Revoked? ==> revoked.grant.key == r.key && revoked.grant.order == r.order
                                           && revoked.grant.user == r.user && revoked.grant.startsAt == revoked.grant.endsAt == r.now))
  {
    RunAgrees(events, r.user, r.now);
  }
}

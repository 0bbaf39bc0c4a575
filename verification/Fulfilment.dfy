/**
  Payment fulfilment: the paths that turn a paid order into a membership grant. Every store call is
  one transaction; between two calls of a request, transactions of other requests may run, and every
  call may fail. The ledger is the one the membership transactions so far have produced.
 */
module Fulfilment {
  import opened Options
  import M = Membership

  datatype OrderStatus = AwaitingPayment | Paid | Fulfilled | Closed | Refunded

  datatype PaymentStatus = Unpaid | PaidUp | PaymentFailed

  datatype Entitlement = Pending | Granted | GrantFailed | Revoked

  datatype Channel = Mock | Alipay

  datatype Order = Order(user: int, status: OrderStatus, payment: PaymentStatus, entitlement: Entitlement,
                         amount: int, expiresAt: int)

  datatype Books = Books(orders: map<nat, Order>, trades: map<(Channel, string), nat>,
                         callbacks: set<(Channel, string)>, events: seq<M.Event>)

  const EMPTY_BOOKS := Books(map[], map[], {}, [])

  function Ledger(s: Books): M.Ledger { M.Run(s.events) }

  // ---- the idempotency key ----

  function Digit(d: nat): char
    requires d < 10
  {
    '0' + d as char
  }

  function Decimal(n: nat): string {
    if n < 10 then [Digit(n)] else Decimal(n / 10) + [Digit(n % 10)]
  }

  function Key(order: nat): string { "payment-order:" + Decimal(order) }

  function RevokeKey(refundNo: string): string { "refund-revoke-" + refundNo }

  lemma {:induction false} DecimalIsInjective(a: nat, b: nat)
    requires Decimal(a) == Decimal(b)
    ensures a == b
  {
    assert Decimal(a)[|Decimal(a)| - 1] == Digit(a % 10) && Decimal(b)[|Decimal(b)| - 1] == Digit(b % 10);
    if a >= 10 && b >= 10 {
      assert Decimal(a)[..|Decimal(a)| - 1] == Decimal(a / 10);
      assert Decimal(b)[..|Decimal(b)| - 1] == Decimal(b / 10);
      DecimalIsInjective(a / 10, b / 10);
    }
  }

  /** Keys of different orders differ, and no order key is a revoke key. */
  lemma KeysAreDistinct(a: nat, b: nat, refundNo: string)
    ensures Key(a) == Key(b) ==> a == b
    ensures Key(a) != RevokeKey(refundNo)
  {
    var prefix := "payment-order:";
    assert Key(a)[|prefix|..] == Decimal(a) && Key(b)[|prefix|..] == Decimal(b);
    if Key(a) == Key(b) { DecimalIsInjective(a, b); }
    assert Key(a)[0] == 'p' && RevokeKey(refundNo)[0] == 'r';
  }

  // ---- store transactions ----

  datatype Tx =
    | CreateOrder(id: nat, user: int, amount: int, expiresAt: int)
    | CloseOrder(id: nat)
    | SaveCallback(channel: Channel, callbackId: string)
    | RecordTrade(id: nat, channel: Channel, tradeNo: string)
    | MarkOrderPaid(id: nat)
    | Grant(id: nat, days: int, now: int)
    | MarkOrderFulfilled(id: nat)
    | MarkEntitlementFailed(id: nat)
    | Revoke(id: nat, refundNo: string, now: int)
    | MarkOrderRefunded(id: nat)
    | CheckActive(user: int, now: int)

  function GrantCall(s: Books, id: nat, days: int, now: int): M.Event
    requires id in s.orders
  {
    M.GrantEvent(M.GrantRequest(s.orders[id].user, id, days, Key(id), now))
  }

  predicate WasFulfilled(o: Order) { o.status == Fulfilled || o.status == Refunded }

  predicate IsSettled(o: Order) { o.status == Fulfilled && o.entitlement == Granted }

  predicate NeedsRetry(o: Order) { o.status == Paid || o.entitlement == GrantFailed }

  /** The guard of the transaction: whether the store reports success. */
  predicate Accepts(s: Books, t: Tx) {
    match t
    case CreateOrder(id, _, _, _) => id !in s.orders
    case CloseOrder(id) => id in s.orders && s.orders[id].status == AwaitingPayment && s.orders[id].payment == Unpaid
    case SaveCallback(channel, callbackId) => (channel, callbackId) !in s.callbacks
    case RecordTrade(id, channel, tradeNo) => id in s.orders && (channel, tradeNo) !in s.trades
    case MarkOrderPaid(id) =>
      && id in s.orders && (s.orders[id].status == AwaitingPayment || s.orders[id].status == Paid || s.orders[id].status == Fulfilled)
      && (s.orders[id].payment == Unpaid || s.orders[id].payment == PaidUp)
    case Grant(id, days, _) => id in s.orders && s.orders[id].user > 0 && id > 0 && days > 0
    case MarkOrderFulfilled(id) =>
      && id in s.orders && s.orders[id].payment == PaidUp && (s.orders[id].status == Paid || s.orders[id].status == Fulfilled)
      && (s.orders[id].entitlement == Pending || s.orders[id].entitlement == GrantFailed || s.orders[id].entitlement == Granted)
    case MarkEntitlementFailed(_) => true
    case Revoke(id, _, _) => id in s.orders && s.orders[id].user > 0 && id > 0
    case MarkOrderRefunded(id) => id in s.orders && (s.orders[id].status == Paid || s.orders[id].status == Fulfilled)
    case CheckActive(_, _) => true
  }

  function Apply(s: Books, t: Tx): Books {
    if !Accepts(s, t) then s else
    match t
    case CreateOrder(id, user, amount, expiresAt) =>
      s.(orders := s.orders[id := Order(user, AwaitingPayment, Unpaid, Pending, amount, expiresAt)])
    case CloseOrder(id) => s.(orders := s.orders[id := s.orders[id].(status := Closed, payment := PaymentFailed)])
    case SaveCallback(channel, callbackId) => s.(callbacks := s.callbacks + {(channel, callbackId)})
    case RecordTrade(id, channel, tradeNo) => s.(trades := s.trades[(channel, tradeNo) := id])
    case MarkOrderPaid(id) =>
      var status := if s.orders[id].status == Fulfilled then Fulfilled else Paid;
      s.(orders := s.orders[id := s.orders[id].(status := status, payment := PaidUp)])
    case Grant(id, days, now) => s.(events := s.events + [GrantCall(s, id, days, now)])
    case MarkOrderFulfilled(id) => s.(orders := s.orders[id := s.orders[id].(status := Fulfilled, entitlement := Granted)])
    case MarkEntitlementFailed(id) =>
      if id in s.orders then s.(orders := s.orders[id := s.orders[id].(entitlement := GrantFailed)]) else s
    case Revoke(id, refundNo, now) =>
      s.(events := s.events + [M.RevokeEvent(M.RevokeRequest(s.orders[id].user, id, RevokeKey(refundNo), now))])
    case MarkOrderRefunded(id) => s.(orders := s.orders[id := s.orders[id].(status := Refunded, entitlement := Revoked)])
    case CheckActive(user, now) => s.(events := s.events + [M.CheckEvent(user, now)])
  }

  predicate HasGrant(s: Books, id: nat) { M.HasKey(Ledger(s).grants, Key(id)) }

  predicate IsPaid(s: Books, id: nat) { id in s.orders && s.orders[id].payment == PaidUp }

  /** What a request must have established before it issues the transaction. */
  predicate Allowed(s: Books, t: Tx) {
    match t
    case Grant(id, _, _) => IsPaid(s, id)
    case MarkOrderFulfilled(id) => HasGrant(s, id)
    case MarkEntitlementFailed(id) => IsPaid(s, id)
    case _ => true
  }

  // ---- what every transaction keeps ----

  /** Open orders are unpaid, settled or refunded orders are paid, and a granted or fulfilled order has its grant. */
  ghost predicate OrderOk(s: Books, id: nat)
    requires id in s.orders
  {
    var o := s.orders[id];
    && ((o.status == Paid || o.status == Fulfilled || o.status == Refunded) <==> o.payment == PaidUp)
    && (o.status == AwaitingPayment <==> o.payment == Unpaid)
    && (o.entitlement != Pending ==> o.payment == PaidUp)
    && (o.status == Fulfilled ==> o.entitlement == Granted || o.entitlement == GrantFailed)
    && (o.entitlement == Revoked ==> o.status == Refunded)
    && (o.entitlement == Granted || o.status == Fulfilled ==> HasGrant(s, id))
  }

  /** Every membership transaction of the grant kind belongs to a paid order, under that order's key. */
  ghost predicate CallOk(s: Books, e: M.Event) {
    && (e.GrantEvent? ==> (e.g.order > 0 && IsPaid(s, e.g.order) && e.g.user == s.orders[e.g.order].user
                           && e.g.key == Key(e.g.order)))
    && (e.RevokeEvent? ==> exists refundNo :: e.r.key == RevokeKey(refundNo))
  }

  ghost predicate OrdersOk(s: Books) { forall id :: id in s.orders ==> OrderOk(s, id) }

  ghost predicate CallsOk(s: Books) { forall i :: 0 <= i < |s.events| ==> CallOk(s, s.events[i]) }

  ghost predicate Inv(s: Books) { OrdersOk(s) && CallsOk(s) }

  /** How one order may have moved: paid stays paid, fulfilled can only be refunded, refunded and closed stay. */
  ghost predicate OrderMoves(o: Order, o': Order) {
    && o'.user == o.user && o'.amount == o.amount && o'.expiresAt == o.expiresAt
    && (o.payment == PaidUp ==> o'.payment == PaidUp)
    && (o.status == Fulfilled ==> WasFulfilled(o'))
    && (o.status == Refunded ==> o'.status == Refunded)
    && (o.status == Closed ==> o'.status == Closed)
  }

  ghost predicate Grows(s: Books, s': Books) {
    && (forall id :: id in s.orders ==> id in s'.orders && OrderMoves(s.orders[id], s'.orders[id]))
    && (forall k :: k in s.trades ==> k in s'.trades && s'.trades[k] == s.trades[k])
    && s.callbacks <= s'.callbacks
    && s.events <= s'.events
  }

  lemma GrowsTransitive(a: Books, b: Books, c: Books)
    requires Grows(a, b) && Grows(b, c)
    ensures Grows(a, c)
  {}

  lemma GrantStays(s: Books, s': Books, id: nat)
    requires HasGrant(s, id) && s.events <= s'.events
    ensures HasGrant(s', id)
  {
    assert s'.events[..|s.events|] == s.events;
    M.KeysPersist(s'.events, |s.events|, Key(id));
  }

  lemma AllowedStays(s: Books, s': Books, t: Tx)
    requires Grows(s, s') && Allowed(s, t)
    ensures Allowed(s', t)
  {
    if t.MarkOrderFulfilled? { GrantStays(s, s', t.id); }
  }

  lemma ApplyGrows(s: Books, t: Tx)
    requires Inv(s)
    ensures Grows(s, Apply(s, t))
  {
    if Accepts(s, t) && (t.MarkOrderPaid? || t.CloseOrder? || t.MarkOrderRefunded?) {
      assert OrderOk(s, t.id);
    }
  }

  lemma ApplyKeepsCalls(s: Books, t: Tx)
    requires Inv(s) && Allowed(s, t)
    ensures CallsOk(Apply(s, t))
  {
    ApplyGrows(s, t);
    var s' := Apply(s, t);
    forall i | 0 <= i < |s'.events| ensures CallOk(s', s'.events[i]) {
      if i < |s.events| { assert CallOk(s, s.events[i]) && s'.events[i] == s.events[i]; }
    }
  }

  lemma ApplyKeepsOrders(s: Books, t: Tx)
    requires Inv(s) && Allowed(s, t)
    ensures OrdersOk(Apply(s, t))
  {
    var s' := Apply(s, t);
    forall id | id in s'.orders ensures OrderOk(s', id) {
      if id in s.orders { ApplyKeepsOrder(s, t, id); }
    }
  }

  lemma ApplyKeepsOrder(s: Books, t: Tx, id: nat)
    requires id in s.orders && OrderOk(s, id) && Allowed(s, t)
    ensures id in Apply(s, t).orders && OrderOk(Apply(s, t), id)
  {
    if HasGrant(s, id) { GrantStays(s, Apply(s, t), id); }
  }

  lemma ApplyKeepsInv(s: Books, t: Tx)
    requires Inv(s) && Allowed(s, t)
    ensures Inv(Apply(s, t)) && Grows(s, Apply(s, t))
  {
    ApplyGrows(s, t);
    ApplyKeepsCalls(s, t);
    ApplyKeepsOrders(s, t);
  }

  function After(txs: seq<Tx>): Books {
    if txs == [] then EMPTY_BOOKS else Apply(After(txs[..|txs| - 1]), txs[|txs| - 1])
  }

  /** Transactions of any number of requests, interleaved: each is issued only when its request may issue it. */
  ghost predicate Legal(txs: seq<Tx>) {
    forall i: nat :: i < |txs| ==> Allowed(After(txs[..i]), txs[i])
  }

  lemma LegalInit(txs: seq<Tx>)
    requires Legal(txs) && txs != []
    ensures Legal(txs[..|txs| - 1]) && Allowed(After(txs[..|txs| - 1]), txs[|txs| - 1])
  {
    var init := txs[..|txs| - 1];
    forall i: nat | i < |init| ensures Allowed(After(init[..i]), init[i]) { assert init[..i] == txs[..i]; }
  }

  lemma {:induction false} RunKeepsInv(txs: seq<Tx>)
    requires Legal(txs)
    ensures Inv(After(txs))
  {
    if txs == [] {
    } else {
      LegalInit(txs);
      RunKeepsInv(txs[..|txs| - 1]);
      ApplyKeepsInv(After(txs[..|txs| - 1]), txs[|txs| - 1]);
    }
  }

  lemma {:induction false} RunGrows(txs: seq<Tx>, n: nat)
    requires Legal(txs) && n <= |txs|
    ensures Grows(After(txs[..n]), After(txs))
  {
    if n == |txs| {
      assert txs[..n] == txs;
    } else {
      var init := txs[..|txs| - 1];
      LegalInit(txs);
      assert init[..n] == txs[..n];
      RunGrows(init, n);
      RunKeepsInv(init);
      ApplyGrows(After(init), txs[|txs| - 1]);
      GrowsTransitive(After(txs[..n]), After(init), After(txs));
    }
  }

  lemma EveryRunIsSound(txs: seq<Tx>, n: nat)
    requires Legal(txs) && n <= |txs|
    ensures Inv(After(txs)) && Grows(After(txs[..n]), After(txs))
  {
    RunKeepsInv(txs);
    RunGrows(txs, n);
  }

  lemma LegalExtend(txs: seq<Tx>, t: Tx)
    requires Legal(txs) && Allowed(After(txs), t)
    ensures Legal(txs + [t]) && After(txs + [t]) == Apply(After(txs), t)
  {
    var all := txs + [t];
    assert all[..|txs|] == txs;
    forall i: nat | i < |all| ensures Allowed(After(all[..i]), all[i]) {
      if i < |txs| { assert all[..i] == txs[..i]; }
    }
  }

  // ---- what the invariant means ----

  /** A grant belongs to a paid order of its own user, and no order has two grants. */
  lemma GrantsArePaidFor(s: Books, i: nat, j: nat)
    requires Inv(s) && i < |Ledger(s).grants| && j < |Ledger(s).grants|
    requires Ledger(s).grants[i].action != M.Revoke && Ledger(s).grants[j].action != M.Revoke
    ensures var g := Ledger(s).grants[i];
            g.order > 0 && IsPaid(s, g.order) && s.orders[g.order].user == g.user && g.key == Key(g.order)
    ensures i != j ==> Ledger(s).grants[i].order != Ledger(s).grants[j].order
  {
    var k := M.GrantHasCall(s.events, i);
    var l := M.GrantHasCall(s.events, j);
    assert CallOk(s, s.events[k]) && CallOk(s, s.events[l]);
    M.KeysAreUnique(s.events);
  }

  /**
    However often an order is fulfilled, by whichever paths, the ledger is the one its first successful
    grant leaves: every other grant call of the order can be struck from the run.
   */
  lemma ReplaysAreErased(s: Books, id: nat)
    requires Inv(s)
    ensures var erased := M.EraseReplays(s.events, Key(id));
            && M.Run(erased) == Ledger(s)
            && M.CountGrants(erased, Key(id)) <= 1
            && (forall e :: e in erased ==> e in s.events)
    ensures forall e :: e in s.events && e.GrantEvent? ==> (M.GrantsWith(e, Key(id)) <==> e.g.order == id)
  {
    M.ReplaysEraseToOne(s.events, Key(id));
    forall e | e in s.events && e.GrantEvent? ensures M.GrantsWith(e, Key(id)) <==> e.g.order == id {
      assert CallOk(s, e);
      KeysAreDistinct(e.g.order, id, "");
    }
  }

  // ---- requests that run alone ----

  datatype TradeAnswer = NoClient | QueryFailed | WaitBuyerPay | TradeClosed | TradePaid(tradeNo: string) | OtherStatus

  datatype Error = NotFound | NotPayable | Expired | Conflict | AmountMismatch | PaymentRejected | NotVerified | FulfilmentFailed | StoreFailed

  datatype Response = Ok(order: Order) | Ignored | Err(error: Error)

  function EnsurePayable(o: Order, now: int): Option<Error> {
    if (o.status == Closed || o.status == Paid || o.status == Fulfilled) then Some(NotPayable)
    else if o.expiresAt < now && o.payment != PaidUp then Some(Expired)
    else None
  }

  /** Fulfilment with its failure mark; the plan is what the plan lookup answered. */
  function AfterFulfil(s: Books, id: nat, plan: Option<int>, now: int): (s': Books)
    requires id in s.orders
    ensures s'.orders.Keys == s.orders.Keys
  {
    if IsSettled(s.orders[id]) then s
    else if plan.None? || !Accepts(s, Grant(id, plan.value, now)) then Apply(s, MarkEntitlementFailed(id))
    else
      var g := Apply(s, Grant(id, plan.value, now));
      if Accepts(g, MarkOrderFulfilled(id)) then Apply(g, MarkOrderFulfilled(id)) else Apply(g, MarkEntitlementFailed(id))
  }

  /** The response of a fulfilment that left s. */
  function Replied(s: Books, id: nat): (Books, Response)
    requires id in s.orders
  {
    (s, if IsSettled(s.orders[id]) then Ok(s.orders[id]) else Err(FulfilmentFailed))
  }

  /** Marks the order paid and fulfils it. */
  function AfterPayment(s: Books, id: nat, plan: Option<int>, now: int): (a: (Books, Response))
    requires id in s.orders
    ensures a.0.orders.Keys == s.orders.Keys
  {
    if !Accepts(s, MarkOrderPaid(id)) then (s, Err(NotPayable))
    else Replied(AfterFulfil(Apply(s, MarkOrderPaid(id)), id, plan, now), id)
  }

  function AfterTrade(s: Books, id: nat, channel: Channel, tradeNo: string, plan: Option<int>, now: int): (a: (Books, Response))
    requires id in s.orders
    ensures a.0.orders.Keys == s.orders.Keys
  {
    if !Accepts(s, RecordTrade(id, channel, tradeNo)) then (s, Err(StoreFailed))
    else AfterPayment(Apply(s, RecordTrade(id, channel, tradeNo)), id, plan, now)
  }

  function AfterPay(s: Books, user: int, id: nat, tradeNo: string, plan: Option<int>, now: int): (Books, Response) {
    if id !in s.orders || s.orders[id].user != user then (s, Err(NotFound))
    else
      match EnsurePayable(s.orders[id], now)
      case Some(e) => (if e == Expired then Apply(s, CloseOrder(id)) else s, Err(e))
      case None => AfterTrade(s, id, Mock, tradeNo, plan, now)
  }

  /** A provider's callback; accepted says that its success flag or its amount was right. */
  function AfterCallback(s: Books, channel: Channel, callbackId: string, tradeNo: string, id: nat, accepted: bool,
                         plan: Option<int>, now: int): (Books, Response)
  {
    if !Accepts(s, SaveCallback(channel, callbackId)) then (s, if id in s.orders then Ok(s.orders[id]) else Err(NotFound))
    else AfterSaved(Apply(s, SaveCallback(channel, callbackId)), channel, tradeNo, id, accepted, plan, now)
  }

  function AfterSaved(s: Books, channel: Channel, tradeNo: string, id: nat, accepted: bool, plan: Option<int>, now: int)
    : (Books, Response)
  {
    if id !in s.orders then (s, Err(NotFound))
    else if !accepted then (s, Err(if channel == Mock then PaymentRejected else AmountMismatch))
    else
      match CallbackBlocked(s.orders[id], now)
      case Some(e) => (if e == Expired then Apply(s, CloseOrder(id)) else s, Err(e))
      case None => AfterResolve(s, channel, tradeNo, id, plan, now)
  }

  /** A callback for an order that is paid or fulfilled is not refused. */
  function CallbackBlocked(o: Order, now: int): Option<Error> {
    if o.status == Paid || o.status == Fulfilled then None else EnsurePayable(o, now)
  }

  /** A trade already on record is not recorded or paid again; it must be this order's. */
  function AfterResolve(s: Books, channel: Channel, tradeNo: string, id: nat, plan: Option<int>, now: int): (a: (Books, Response))
    requires id in s.orders
    ensures a.0.orders.Keys == s.orders.Keys
  {
    if (channel, tradeNo) !in s.trades then AfterTrade(s, id, channel, tradeNo, plan, now)
    else if s.trades[(channel, tradeNo)] == id then AfterRetry(s, id, plan, now)
    else (s, Err(Conflict))
  }

  /** Fulfils an order that is paid, or whose last fulfilment failed; any other is returned as it is. */
  function AfterRetry(s: Books, id: nat, plan: Option<int>, now: int): (a: (Books, Response))
    requires id in s.orders
    ensures a.0.orders.Keys == s.orders.Keys
  {
    if NeedsRetry(s.orders[id]) then Replied(AfterFulfil(s, id, plan, now), id) else (s, Ok(s.orders[id]))
  }

  function AfterRegrant(s: Books, id: nat, plan: Option<int>, now: int): (Books, Response) {
    if id !in s.orders then (s, Err(NotFound))
    else if s.orders[id].payment != PaidUp then (s, Err(NotPayable))
    else Replied(AfterFulfil(s, id, plan, now), id)
  }

  /** The provider's answer about an unpaid order; a trade reported paid is recorded unless it is on record. */
  function AfterQuery(s: Books, id: nat, query: TradeAnswer, plan: Option<int>, now: int): (a: (Books, Response))
    requires id in s.orders
    ensures a.0.orders.Keys == s.orders.Keys
  {
    match query
    case TradePaid(tradeNo) => AfterPayment(Apply(s, RecordTrade(id, Alipay, tradeNo)), id, plan, now)
    case TradeClosed => AfterRetry(Apply(s, CloseOrder(id)), id, plan, now)
    case _ => AfterRetry(s, id, plan, now)
  }

  function AfterDetect(s: Books, user: int, id: nat, query: TradeAnswer, plan: Option<int>, now: int): (Books, Response) {
    if id !in s.orders || s.orders[id].user != user then (s, Err(NotFound))
    else if s.orders[id].status == AwaitingPayment || s.orders[id].payment == Unpaid then AfterQuery(s, id, query, plan, now)
    else AfterRetry(s, id, plan, now)
  }

  /** The plan lookup answered with a usable plan, and the grant request is complete. */
  predicate PlanOk(s: Books, id: nat, plan: Option<int>) {
    id > 0 && id in s.orders && s.orders[id].user > 0 && plan.Some? && plan.value > 0
  }

  lemma FulfilFails(s: Books, id: nat, plan: Option<int>, now: int)
    requires id in s.orders && !IsSettled(s.orders[id]) && !PlanOk(s, id, plan)
    ensures AfterFulfil(s, id, plan, now) == Apply(s, MarkEntitlementFailed(id))
  {}

  lemma FulfilGrants(s: Books, id: nat, plan: Option<int>, now: int)
    requires Inv(s) && IsPaid(s, id) && !IsSettled(s.orders[id]) && PlanOk(s, id, plan)
    ensures var s', o := AfterFulfil(s, id, plan, now), s.orders[id];
            && s'.events == Apply(s, Grant(id, plan.value, now)).events
            && s'.orders[id] == (if o.status != Refunded then o.(status := Fulfilled, entitlement := Granted)
                                 else o.(entitlement := GrantFailed))
  {
    assert OrderOk(s, id);
  }

  /** Fulfilled and granted, or marked as failed: nothing else about a paid order changes. */
  lemma FulfilledOrder(s: Books, id: nat, plan: Option<int>, now: int)
    requires Inv(s) && IsPaid(s, id)
    ensures var s', o := AfterFulfil(s, id, plan, now), s.orders[id];
            s'.orders[id] == (if IsSettled(o) then o
                              else if o.status != Refunded && PlanOk(s, id, plan) then o.(status := Fulfilled, entitlement := Granted)
                              else o.(entitlement := GrantFailed))
  {
    if !IsSettled(s.orders[id]) {
      if PlanOk(s, id, plan) { FulfilGrants(s, id, plan, now); } else { FulfilFails(s, id, plan, now); }
    }
  }

  lemma FulfilledLedger(s: Books, id: nat, plan: Option<int>, now: int)
    requires Inv(s) && IsPaid(s, id)
    ensures var s' := AfterFulfil(s, id, plan, now);
            && (HasGrant(s', id) <==> HasGrant(s, id) || PlanOk(s, id, plan))
            && (Ledger(s') == Ledger(s) <==> HasGrant(s, id) || !PlanOk(s, id, plan))
  {
    if IsSettled(s.orders[id]) {
      assert OrderOk(s, id);
    } else if PlanOk(s, id, plan) {
      FulfilGrants(s, id, plan, now);
      GrantLeavesKey(s, id, plan.value, now);
    } else {
      FulfilFails(s, id, plan, now);
    }
  }

  /**
    Running alone, fulfilment settles a paid order exactly when it is settled already, or it is not
    refunded and its plan can still be had. It grants, once, whenever the plan can be had; repeating
    it on a settled order changes nothing.
   */
  lemma FulfilSettlesIff(s: Books, id: nat, plan: Option<int>, now: int, again: int)
    requires Inv(s) && IsPaid(s, id)
    ensures var s' := AfterFulfil(s, id, plan, now);
            && (IsSettled(s'.orders[id]) <==> IsSettled(s.orders[id]) || (s.orders[id].status != Refunded && PlanOk(s, id, plan)))
            && (IsSettled(s'.orders[id]) ==> AfterFulfil(s', id, plan, again) == s')
            && (HasGrant(s', id) <==> HasGrant(s, id) || PlanOk(s, id, plan))
            && (Ledger(s') == Ledger(s) <==> HasGrant(s, id) || !PlanOk(s, id, plan))
  {
    FulfilledOrder(s, id, plan, now);
    FulfilledLedger(s, id, plan, now);
  }

  lemma GrantLeavesKey(s: Books, id: nat, days: int, now: int)
    requires id in s.orders && Accepts(s, Grant(id, days, now))
    ensures var g := Apply(s, Grant(id, days, now)); HasGrant(g, id) && (Ledger(g) == Ledger(s) <==> HasGrant(s, id))
  {
    var g, e := Apply(s, Grant(id, days, now)), GrantCall(s, id, days, now);
    assert g.events[..|s.events|] == s.events;
    if !HasGrant(s, id) {
      assert Ledger(g).grants[|Ledger(s).grants|].key == Key(id);
    }
  }

  predicate MayBePaid(o: Order) { o.status != Refunded && o.status != Closed }

  /** Payment settles exactly the settled orders and those that may be paid and whose plan can be had, and says so. */
  lemma PaymentSettlesIff(s: Books, id: nat, plan: Option<int>, now: int)
    requires Inv(s) && id in s.orders
    ensures var (s', r) := AfterPayment(s, id, plan, now);
            && (IsSettled(s'.orders[id]) <==> IsSettled(s.orders[id]) || (MayBePaid(s.orders[id]) && PlanOk(s, id, plan)))
            && (IsSettled(s'.orders[id]) ==> HasGrant(s', id))
            && r == (if IsSettled(s'.orders[id]) then Ok(s'.orders[id])
                     else if MayBePaid(s.orders[id]) then Err(FulfilmentFailed) else Err(NotPayable))
  {
    assert OrderOk(s, id);
    if MayBePaid(s.orders[id]) {
      var p := Apply(s, MarkOrderPaid(id));
      ApplyKeepsInv(s, MarkOrderPaid(id));
      assert OrderOk(p, id);
      FulfilSettlesIff(p, id, plan, now, now);
    }
  }

  /** A trade reported paid settles under the same condition, whether or not it is already on record. */
  lemma PaidAnswerSettlesIff(s: Books, id: nat, tradeNo: string, plan: Option<int>, now: int)
    requires Inv(s) && id in s.orders
    ensures var (s', r) := AfterQuery(s, id, TradePaid(tradeNo), plan, now);
            && (IsSettled(s'.orders[id]) <==> IsSettled(s.orders[id]) || (MayBePaid(s.orders[id]) && PlanOk(s, id, plan)))
            && (r.Ok? <==> IsSettled(s'.orders[id]))
  {
    ApplyKeepsInv(s, RecordTrade(id, Alipay, tradeNo));
    PaymentSettlesIff(Apply(s, RecordTrade(id, Alipay, tradeNo)), id, plan, now);
  }

  lemma RetrySettlesIff(s: Books, id: nat, plan: Option<int>, now: int)
    requires Inv(s) && id in s.orders
    ensures var (s', r) := AfterRetry(s, id, plan, now);
            var o := s.orders[id];
            && (IsSettled(s'.orders[id]) <==> IsSettled(o) || (WasPaid(o) && PlanOk(s, id, plan)))
            && (r.Ok? <==> IsSettled(s'.orders[id]) || !NeedsRetry(o))
            && (o.status != Paid && o.entitlement != GrantFailed ==> s' == s && r == Ok(o))
  {
    assert OrderOk(s, id);
    if NeedsRetry(s.orders[id]) { FulfilSettlesIff(s, id, plan, now, now); }
  }

  predicate WasPaid(o: Order) { o.status == Paid || o.status == Fulfilled }

  /**
    Detection, for every order and every answer of the provider: what it settles, and when it reports
    success. A waiting order is settled exactly when its trade is reported paid and its plan can be had.
   */
  lemma DetectionSettlesIff(s: Books, user: int, id: nat, query: TradeAnswer, plan: Option<int>, now: int)
    requires Inv(s) && id in s.orders
    ensures var (s', r) := AfterDetect(s, user, id, query, plan, now);
            var o := s.orders[id];
            var reportedPaid := o.status == AwaitingPayment && query.TradePaid?;
            && (IsSettled(s'.orders[id]) <==>
                  IsSettled(o) || (user == o.user && PlanOk(s, id, plan) && (WasPaid(o) || reportedPaid)))
            && (r.Ok? <==> user == o.user && (IsSettled(s'.orders[id]) || !(NeedsRetry(o) || reportedPaid)))
  {
    assert OrderOk(s, id);
    if user == s.orders[id].user {
      if s.orders[id].status == AwaitingPayment && query.TradePaid? {
        PaidAnswerSettlesIff(s, id, query.tradeNo, plan, now);
      } else {
        RetrySettlesIff(s, id, plan, now);
      }
    }
  }

  // ---- orders that were refunded ----

  /** A regrant settles what was paid and not refunded; a refunded order always ends up marked as failed. */
  lemma RegrantSettlesIff(s: Books, id: nat, plan: Option<int>, now: int)
    requires Inv(s) && id in s.orders
    ensures var (s', r) := AfterRegrant(s, id, plan, now);
            var o := s.orders[id];
            && (r.Ok? <==> IsSettled(s'.orders[id]))
            && (IsSettled(s'.orders[id]) <==> IsSettled(o) || (WasPaid(o) && PlanOk(s, id, plan)))
            && (o.status == Refunded ==> s'.orders[id] == o.(entitlement := GrantFailed) && r == Err(FulfilmentFailed))
  {
    assert OrderOk(s, id);
    if IsPaid(s, id) {
      FulfilledOrder(s, id, plan, now);
    }
  }

  predicate RefundedAndFailed(s: Books, id: nat) {
    id in s.orders && s.orders[id].status == Refunded && s.orders[id].entitlement == GrantFailed
  }

  lemma ApplyKeepsRefundedFailure(s: Books, t: Tx, id: nat)
    requires RefundedAndFailed(s, id)
    ensures RefundedAndFailed(Apply(s, t), id) && Apply(s, t).orders[id] == s.orders[id]
  {}

  lemma {:induction false} RefundedFailureStays(txs: seq<Tx>, n: nat, id: nat)
    requires n <= |txs| && RefundedAndFailed(After(txs[..n]), id)
    ensures RefundedAndFailed(After(txs), id) && After(txs).orders[id] == After(txs[..n]).orders[id]
    decreases |txs|
  {
    if n == |txs| {
      assert txs[..n] == txs;
    } else {
      var init := txs[..|txs| - 1];
      assert init[..n] == txs[..n];
      RefundedFailureStays(init, n, id);
      ApplyKeepsRefundedFailure(After(init), txs[|txs| - 1], id);
    }
  }

  /** Once a refunded order is marked as failed it stays so in every run, and every later retry fails. */
  lemma RefundedFailureIsFinal(txs: seq<Tx>, n: nat, id: nat, plan: Option<int>, now: int)
    requires Legal(txs) && n <= |txs| && RefundedAndFailed(After(txs[..n]), id)
    ensures RefundedAndFailed(After(txs), id) && After(txs).orders[id] == After(txs[..n]).orders[id]
    ensures AfterRetry(After(txs), id, plan, now).1 == Err(FulfilmentFailed)
  {
    RefundedFailureStays(txs, n, id);
    RunKeepsInv(txs);
    RetrySettlesIff(After(txs), id, plan, now);
    assert !WasPaid(After(txs).orders[id]);
  }

  function AfterFullRefund(s: Books, id: nat, refundNo: string, now: int): Books {
    Apply(Apply(s, Revoke(id, refundNo, now)), MarkOrderRefunded(id))
  }

  lemma RevokedLedger(s: Books, id: nat, refundNo: string, now: int)
    requires id in s.orders && Accepts(s, Revoke(id, refundNo, now))
    ensures Ledger(Apply(s, Revoke(id, refundNo, now)))
         == M.RevokeStep(Ledger(s), M.RevokeRequest(s.orders[id].user, id, RevokeKey(refundNo), now))
  {
    assert Apply(s, Revoke(id, refundNo, now)).events[..|s.events|] == s.events;
  }

  /** A full refund leaves a paid order refunded, and no other. */
  lemma FullRefundRefundsIff(s: Books, id: nat, refundNo: string, now: int)
    requires Inv(s) && id in s.orders
    ensures var s' := AfterFullRefund(s, id, refundNo, now);
            id in s'.orders && (s'.orders[id].status == Refunded <==> IsPaid(s, id))
  {
    assert OrderOk(s, id);
  }

  /**
    What a full refund, running alone, does to a membership that is active: it ends it exactly when the
    revoke request is complete and new and the order is that of the latest live grant; else the ledger
    stays as it is.
   */
  lemma FullRefundEndsMembershipIff(s: Books, id: nat, refundNo: string, now: int)
    requires id in s.orders && M.ClockedUpTo(s.events, now) && M.ActiveAt(Ledger(s), s.orders[id].user, now)
    ensures var s', user := AfterFullRefund(s, id, refundNo, now), s.orders[id].user;
            var live := M.Live(Ledger(s).grants, user);
            && live != []
            && (!M.ActiveAt(Ledger(s'), user, now) <==>
                  id > 0 && user > 0 && !M.HasKey(Ledger(s).grants, RevokeKey(refundNo)) && live[|live| - 1].order == id)
            && (M.ActiveAt(Ledger(s'), user, now) ==> Ledger(s') == Ledger(s))
  {
    var revoke := Revoke(id, refundNo, now);
    assert AfterFullRefund(s, id, refundNo, now).events == Apply(s, revoke).events;
    M.RevokeEndsMembershipIff(s.events, M.RevokeRequest(s.orders[id].user, id, RevokeKey(refundNo), now));
    if Accepts(s, revoke) { RevokedLedger(s, id, refundNo, now); }
  }

  // ---- when a callback settles its order ----

  predicate TradeIsNew(s: Books, channel: Channel, tradeNo: string) { (channel, tradeNo) !in s.trades }

  predicate TradeIsOwn(s: Books, channel: Channel, tradeNo: string, id: nat) {
    (channel, tradeNo) in s.trades && s.trades[(channel, tradeNo)] == id
  }

  /** A trade number that is new, or on record for the order: when it settles, and when it is answered with success. */
  lemma ResolveSettlesIff(s: Books, channel: Channel, tradeNo: string, id: nat, plan: Option<int>, now: int)
    requires Inv(s) && id in s.orders
    ensures var (s', r) := AfterResolve(s, channel, tradeNo, id, plan, now);
            var o, planOk := s.orders[id], PlanOk(s, id, plan);
            var isNew, own := TradeIsNew(s, channel, tradeNo), TradeIsOwn(s, channel, tradeNo, id);
            && (IsSettled(s'.orders[id]) <==>
                  IsSettled(o) || (MayBePaid(o) && planOk && (isNew || (own && o.status != AwaitingPayment))))
            && (r.Ok? <==> (isNew && (IsSettled(o) || (MayBePaid(o) && planOk)))
                           || (own && (!NeedsRetry(o) || (MayBePaid(o) && planOk))))
  {
    assert OrderOk(s, id);
    if TradeIsNew(s, channel, tradeNo) {
      ApplyKeepsInv(s, RecordTrade(id, channel, tradeNo));
      PaymentSettlesIff(Apply(s, RecordTrade(id, channel, tradeNo)), id, plan, now);
    } else if NeedsRetry(s.orders[id]) {
      FulfilSettlesIff(s, id, plan, now, now);
    }
  }

  /**
    For every order and every callback: when it settles the order, and when it reports success. It
    settles nothing when its id is on record, and nothing that still waits when its trade number is.
   */
  lemma CallbackSettlesIff(s: Books, channel: Channel, callbackId: string, tradeNo: string, id: nat, accepted: bool,
                           plan: Option<int>, now: int)
    requires Inv(s) && id in s.orders
    ensures var (s', r) := AfterCallback(s, channel, callbackId, tradeNo, id, accepted, plan, now);
            var o, planOk := s.orders[id], PlanOk(s, id, plan);
            var isNew, own := TradeIsNew(s, channel, tradeNo), TradeIsOwn(s, channel, tradeNo, id);
            var known := (channel, callbackId) in s.callbacks;
            var admitted := accepted && o.status != Closed && (o.status == AwaitingPayment ==> now <= o.expiresAt);
            && (IsSettled(s'.orders[id]) <==>
                  IsSettled(o) || (!known && admitted && MayBePaid(o) && planOk && (isNew || (own && o.status != AwaitingPayment))))
            && (r.Ok? <==>
                  known || (admitted && ((isNew && (IsSettled(o) || (MayBePaid(o) && planOk)))
                                         || (own && (!NeedsRetry(o) || (MayBePaid(o) && planOk))))))
            && (known ==> s' == s) && (!known && !accepted ==> s' == s.(callbacks := s.callbacks + {(channel, callbackId)}))
  {
    assert OrderOk(s, id);
    ApplyKeepsInv(s, SaveCallback(channel, callbackId));
    ResolveSettlesIff(Apply(s, SaveCallback(channel, callbackId)), channel, tradeNo, id, plan, now);
  }

  /**
    For an open order: settled exactly when callback id and trade number are both new, the callback is
    accepted in time and the plan can be had; success is also reported for an id on record and for a
    trade on record, and then the order still waits.
   */
  lemma OpenOrderSettlesIff(s: Books, channel: Channel, callbackId: string, tradeNo: string, id: nat, accepted: bool,
                            plan: Option<int>, now: int)
    requires Inv(s) && id in s.orders && s.orders[id].status == AwaitingPayment
    ensures var (s', r) := AfterCallback(s, channel, callbackId, tradeNo, id, accepted, plan, now);
            var known, inTime := (channel, callbackId) in s.callbacks, accepted && now <= s.orders[id].expiresAt;
            var isNew, own := TradeIsNew(s, channel, tradeNo), TradeIsOwn(s, channel, tradeNo, id);
            && (IsSettled(s'.orders[id]) <==> !known && inTime && isNew && PlanOk(s, id, plan))
            && (r.Ok? <==> known || (inTime && (own || (isNew && PlanOk(s, id, plan)))))
            && (r.Ok? && !IsSettled(s'.orders[id]) ==> s'.orders[id] == s.orders[id] && s'.events == s.events)
  {
    assert OrderOk(s, id);
    CallbackSettlesIff(s, channel, callbackId, tradeNo, id, accepted, plan, now);
  }

  // ---- paying an own order ----

  predicate Payable(s: Books, id: nat, now: int)
    requires id in s.orders
  {
    s.orders[id].status == AwaitingPayment && now <= s.orders[id].expiresAt
  }

  /** An order is found only by its own user; to anybody else nothing is shown and nothing changes. */
  lemma StrangersCannotPay(s: Books, user: int, id: nat, tradeNo: string, plan: Option<int>, now: int)
    ensures AfterPay(s, user, id, tradeNo, plan, now).1 == Err(NotFound) <==> id !in s.orders || s.orders[id].user != user
    ensures id !in s.orders || s.orders[id].user != user ==> AfterPay(s, user, id, tradeNo, plan, now).0 == s
  {}

  /**
    Paying settles, and reports success, exactly for the order's own user, while the order waits and is in time, the
    trade is new and the plan can be had.
   */
  lemma PayMockSettlesIff(s: Books, user: int, id: nat, tradeNo: string, plan: Option<int>, now: int)
    requires Inv(s) && id in s.orders
    ensures var (s', r) := AfterPay(s, user, id, tradeNo, plan, now);
            var pays := s.orders[id].user == user && Payable(s, id, now) && TradeIsNew(s, Mock, tradeNo) && PlanOk(s, id, plan);
            && id in s'.orders
            && (IsSettled(s'.orders[id]) <==> IsSettled(s.orders[id]) || pays)
            && (r.Ok? <==> pays) && (pays ==> r.order == s'.orders[id])
  {
    assert OrderOk(s, id);
    if s.orders[id].user == user && EnsurePayable(s.orders[id], now).None? && TradeIsNew(s, Mock, tradeNo) {
      ApplyKeepsInv(s, RecordTrade(id, Mock, tradeNo));
      PaymentSettlesIff(Apply(s, RecordTrade(id, Mock, tradeNo)), id, plan, now);
    }
  }

  /** Why an own order is not paid: it is closed or paid already, refunded, expired, its trade is known, or its plan is gone. */
  lemma PayMockRefusalMeans(s: Books, id: nat, tradeNo: string, plan: Option<int>, now: int)
    requires Inv(s) && id in s.orders
    ensures var o, isNew := s.orders[id], TradeIsNew(s, Mock, tradeNo);
            var (s', r) := AfterPay(s, o.user, id, tradeNo, plan, now);
            && (r == Err(NotPayable) <==> o.status == Closed || WasPaid(o) || (o.status == Refunded && isNew))
            && (r == Err(Expired) <==> o.status == AwaitingPayment && o.expiresAt < now)
            && (r == Err(StoreFailed) <==> (Payable(s, id, now) || o.status == Refunded) && !isNew)
            && (r == Err(FulfilmentFailed) <==> Payable(s, id, now) && isNew && !PlanOk(s, id, plan))
  {
    assert OrderOk(s, id);
    if EnsurePayable(s.orders[id], now).None? && TradeIsNew(s, Mock, tradeNo) {
      ApplyKeepsInv(s, RecordTrade(id, Mock, tradeNo));
      PaymentSettlesIff(Apply(s, RecordTrade(id, Mock, tradeNo)), id, plan, now);
    }
  }

  // ---- which requests close an order ----

  lemma FulfilKeepsClosed(s: Books, id: nat, plan: Option<int>, now: int)
    requires Inv(s) && IsPaid(s, id)
    ensures s.orders[id].status != Closed && AfterFulfil(s, id, plan, now).orders[id].status != Closed
  {
    assert OrderOk(s, id);
    FulfilledOrder(s, id, plan, now);
  }

  lemma PaymentKeepsClosed(s: Books, id: nat, plan: Option<int>, now: int)
    requires Inv(s) && id in s.orders
    ensures AfterPayment(s, id, plan, now).0.orders[id].status == Closed <==> s.orders[id].status == Closed
  {
    assert OrderOk(s, id);
    if Accepts(s, MarkOrderPaid(id)) {
      ApplyKeepsInv(s, MarkOrderPaid(id));
      FulfilKeepsClosed(Apply(s, MarkOrderPaid(id)), id, plan, now);
    }
  }

  lemma TradeKeepsClosed(s: Books, id: nat, channel: Channel, tradeNo: string, plan: Option<int>, now: int)
    requires Inv(s) && id in s.orders
    ensures AfterTrade(s, id, channel, tradeNo, plan, now).0.orders[id].status == Closed <==> s.orders[id].status == Closed
  {
    ApplyKeepsInv(s, RecordTrade(id, channel, tradeNo));
    PaymentKeepsClosed(Apply(s, RecordTrade(id, channel, tradeNo)), id, plan, now);
  }

  lemma RetryKeepsClosed(s: Books, id: nat, plan: Option<int>, now: int)
    requires Inv(s) && id in s.orders
    ensures AfterRetry(s, id, plan, now).0.orders[id].status == Closed <==> s.orders[id].status == Closed
  {
    assert OrderOk(s, id);
    if NeedsRetry(s.orders[id]) { FulfilKeepsClosed(s, id, plan, now); }
  }

  /** Paying closes an order exactly when it waits, is its user's own, and is found expired. */
  lemma PayingCloses(s: Books, user: int, id: nat, tradeNo: string, plan: Option<int>, now: int)
    requires Inv(s) && id in s.orders
    ensures var o, s' := s.orders[id], AfterPay(s, user, id, tradeNo, plan, now).0;
            id in s'.orders
            && (s'.orders[id].status == Closed <==>
                  o.status == Closed || (o.user == user && o.status == AwaitingPayment && o.expiresAt < now))
  {
    assert OrderOk(s, id);
    TradeKeepsClosed(s, id, Mock, tradeNo, plan, now);
  }

  lemma ResolvingKeepsClosed(s: Books, channel: Channel, tradeNo: string, id: nat, plan: Option<int>, now: int)
    requires Inv(s) && id in s.orders
    ensures AfterResolve(s, channel, tradeNo, id, plan, now).0.orders[id].status == Closed <==> s.orders[id].status == Closed
  {
    TradeKeepsClosed(s, id, channel, tradeNo, plan, now);
    RetryKeepsClosed(s, id, plan, now);
  }

  /** A callback closes an order exactly when it is new and accepted, and the order waits and is found expired. */
  lemma CallbackCloses(s: Books, channel: Channel, callbackId: string, tradeNo: string, id: nat, accepted: bool,
                       plan: Option<int>, now: int)
    requires Inv(s) && id in s.orders
    ensures var o, s' := s.orders[id], AfterCallback(s, channel, callbackId, tradeNo, id, accepted, plan, now).0;
            var isNew := (channel, callbackId) !in s.callbacks;
            id in s'.orders
            && (s'.orders[id].status == Closed <==>
                  o.status == Closed || (isNew && accepted && o.status == AwaitingPayment && o.expiresAt < now))
  {
    assert OrderOk(s, id);
    ApplyKeepsInv(s, SaveCallback(channel, callbackId));
    ResolvingKeepsClosed(Apply(s, SaveCallback(channel, callbackId)), channel, tradeNo, id, plan, now);
  }

  /** Detection closes an order exactly when it waits and its own user is told that its trade is closed. */
  lemma DetectionCloses(s: Books, user: int, id: nat, query: TradeAnswer, plan: Option<int>, now: int)
    requires Inv(s) && id in s.orders
    ensures var o, s' := s.orders[id], AfterDetect(s, user, id, query, plan, now).0;
            id in s'.orders
            && (s'.orders[id].status == Closed <==>
                  o.status == Closed || (o.user == user && o.status == AwaitingPayment && query.TradeClosed?))
  {
    assert OrderOk(s, id);
    RetryKeepsClosed(s, id, plan, now);
    match query
    case TradePaid(tradeNo) =>
      ApplyKeepsInv(s, RecordTrade(id, Alipay, tradeNo));
      PaymentKeepsClosed(Apply(s, RecordTrade(id, Alipay, tradeNo)), id, plan, now);
    case TradeClosed =>
      ApplyKeepsInv(s, CloseOrder(id));
      RetryKeepsClosed(Apply(s, CloseOrder(id)), id, plan, now);
    case _ =>
  }

  // ---- what is credited ----

  /** The one membership transaction of a settled order: its user, its days, its key. */
  function Credit(s: Books, id: nat, days: int, now: int): M.GrantRequest
    requires id in s.orders
  {
    M.GrantRequest(s.orders[id].user, id, days, Key(id), now)
  }

  ghost predicate Credits(s: Books, s': Books, id: nat, plan: Option<int>, now: int)
    requires id in s.orders
  {
    && id in s'.orders
    && s'.events == s.events + if IsSettled(s'.orders[id]) && plan.Some? then [M.GrantEvent(Credit(s, id, plan.value, now))] else []
  }

  lemma UnpaidHasNoGrant(s: Books, id: nat)
    requires Inv(s) && !IsPaid(s, id)
    ensures !HasGrant(s, id)
  {
    if HasGrant(s, id) {
      var i :| 0 <= i < |Ledger(s).grants| && Ledger(s).grants[i].key == Key(id);
      KeyIsGrants(s, i, id);
      var k := M.GrantHasCall(s.events, i);
      assert CallOk(s, s.events[k]);
      KeysAreDistinct(s.events[k].g.order, id, "");
    }
  }

  /** A ledger row under an order's key is a grant: revokes have keys of their own. */
  lemma {:induction false} RevokeHasCall(events: seq<M.Event>, i: nat) returns (k: nat)
    requires i < |M.Run(events).grants| && M.Run(events).grants[i].action == M.Revoke
    ensures k < |events| && events[k].RevokeEvent? && events[k].r.key == M.Run(events).grants[i].key
  {
    var init := events[..|events| - 1];
    if i < |M.Run(init).grants| {
      k := RevokeHasCall(init, i);
    } else {
      k := |events| - 1;
    }
  }

  lemma KeyIsGrants(s: Books, i: nat, id: nat)
    requires Inv(s) && i < |Ledger(s).grants| && Ledger(s).grants[i].key == Key(id)
    ensures Ledger(s).grants[i].action != M.Revoke
  {
    if Ledger(s).grants[i].action == M.Revoke {
      var k := RevokeHasCall(s.events, i);
      assert CallOk(s, s.events[k]);
      var refundNo :| s.events[k].r.key == RevokeKey(refundNo);
      KeysAreDistinct(id, id, refundNo);
    }
  }

  lemma PaymentCredits(s: Books, id: nat, plan: Option<int>, now: int)
    requires Inv(s) && id in s.orders && s.orders[id].status == AwaitingPayment
    ensures Credits(s, AfterPayment(s, id, plan, now).0, id, plan, now)
  {
    assert OrderOk(s, id);
    var p := Apply(s, MarkOrderPaid(id));
    ApplyKeepsInv(s, MarkOrderPaid(id));
    if PlanOk(p, id, plan) { FulfilGrants(p, id, plan, now); } else { FulfilFails(p, id, plan, now); }
  }

  lemma TradeCredits(s: Books, id: nat, channel: Channel, tradeNo: string, plan: Option<int>, now: int)
    requires Inv(s) && id in s.orders && s.orders[id].status == AwaitingPayment
    ensures Credits(s, AfterTrade(s, id, channel, tradeNo, plan, now).0, id, plan, now)
  {
    if Accepts(s, RecordTrade(id, channel, tradeNo)) {
      ApplyKeepsInv(s, RecordTrade(id, channel, tradeNo));
      PaymentCredits(Apply(s, RecordTrade(id, channel, tradeNo)), id, plan, now);
    }
  }

  /**
    However a waiting order is paid, by its user, by a callback or by detection: when it ends up settled, its user was
    credited the days of the plan, once, under the order's key; when not, the ledger is as it was.
   */
  lemma PayingCredits(s: Books, user: int, id: nat, tradeNo: string, plan: Option<int>, now: int)
    requires Inv(s) && id in s.orders && s.orders[id].status == AwaitingPayment
    ensures Credits(s, AfterPay(s, user, id, tradeNo, plan, now).0, id, plan, now)
  {
    TradeCredits(s, id, Mock, tradeNo, plan, now);
  }

  lemma CallbackCredits(s: Books, channel: Channel, callbackId: string, tradeNo: string, id: nat, accepted: bool,
                        plan: Option<int>, now: int)
    requires Inv(s) && id in s.orders && s.orders[id].status == AwaitingPayment
    ensures Credits(s, AfterCallback(s, channel, callbackId, tradeNo, id, accepted, plan, now).0, id, plan, now)
  {
    assert OrderOk(s, id);
    ApplyKeepsInv(s, SaveCallback(channel, callbackId));
    TradeCredits(Apply(s, SaveCallback(channel, callbackId)), id, channel, tradeNo, plan, now);
  }

  lemma DetectionCredits(s: Books, user: int, id: nat, query: TradeAnswer, plan: Option<int>, now: int)
    requires Inv(s) && id in s.orders && s.orders[id].status == AwaitingPayment
    ensures Credits(s, AfterDetect(s, user, id, query, plan, now).0, id, plan, now)
  {
    assert OrderOk(s, id);
    if query.TradePaid? {
      ApplyKeepsInv(s, RecordTrade(id, Alipay, query.tradeNo));
      PaymentCredits(Apply(s, RecordTrade(id, Alipay, query.tradeNo)), id, plan, now);
    }
  }

  /** A credit adds exactly the days of the plan to the time the user has left. */
  lemma CreditAddsDays(s: Books, s': Books, id: nat, plan: Option<int>, now: int)
    requires Inv(s) && id in s.orders && s.orders[id].status == AwaitingPayment && Credits(s, s', id, plan, now)
    requires PlanOk(s, id, plan) && IsSettled(s'.orders[id]) && M.ClockedUpTo(s.events, now)
    ensures var user := s.orders[id].user;
            var before, after := M.Live(Ledger(s).grants, user), M.Live(Ledger(s').grants, user);
            M.Remaining(after, now) == M.Remaining(before, now) + plan.value * M.DAY
  {
    assert OrderOk(s, id);
    UnpaidHasNoGrant(s, id);
    var r := Credit(s, id, plan.value, now);
    assert s'.events[..|s.events|] == s.events && s'.events[|s.events|] == M.GrantEvent(r);
    assert Ledger(s') == M.GrantStep(Ledger(s), r);
    M.GrantAddsItsDuration(s.events, r);
  }

  // ---- no path touches another order ----

  ghost predicate OnlyTouches(s: Books, s': Books, id: nat) {
    && s'.orders.Keys == s.orders.Keys
    && forall other :: other in s.orders && other != id ==> s'.orders[other] == s.orders[other]
  }

  lemma FulfilTouches(s: Books, id: nat, plan: Option<int>, now: int)
    requires id in s.orders
    ensures OnlyTouches(s, AfterFulfil(s, id, plan, now), id)
  {}

  lemma PaymentTouches(s: Books, id: nat, plan: Option<int>, now: int)
    requires id in s.orders
    ensures OnlyTouches(s, AfterPayment(s, id, plan, now).0, id)
  {
    if Accepts(s, MarkOrderPaid(id)) { FulfilTouches(Apply(s, MarkOrderPaid(id)), id, plan, now); }
  }

  lemma ResolveTouches(s: Books, channel: Channel, tradeNo: string, id: nat, plan: Option<int>, now: int)
    requires id in s.orders
    ensures OnlyTouches(s, AfterTrade(s, id, channel, tradeNo, plan, now).0, id)
    ensures OnlyTouches(s, AfterResolve(s, channel, tradeNo, id, plan, now).0, id)
  {
    PaymentTouches(Apply(s, RecordTrade(id, channel, tradeNo)), id, plan, now);
    FulfilTouches(s, id, plan, now);
  }

  /** Whatever a request does to its order, it does nothing to any other. */
  lemma PayingTouches(s: Books, user: int, id: nat, tradeNo: string, plan: Option<int>, now: int)
    ensures OnlyTouches(s, AfterPay(s, user, id, tradeNo, plan, now).0, id)
  {
    if id in s.orders { ResolveTouches(s, Mock, tradeNo, id, plan, now); }
  }

  lemma CallbackTouches(s: Books, channel: Channel, callbackId: string, tradeNo: string, id: nat, accepted: bool,
                        plan: Option<int>, now: int)
    ensures OnlyTouches(s, AfterCallback(s, channel, callbackId, tradeNo, id, accepted, plan, now).0, id)
  {
    if id in s.orders { ResolveTouches(Apply(s, SaveCallback(channel, callbackId)), channel, tradeNo, id, plan, now); }
  }

  lemma RetryTouches(s: Books, id: nat, plan: Option<int>, now: int)
    requires id in s.orders
    ensures OnlyTouches(s, AfterRetry(s, id, plan, now).0, id)
  {
    FulfilTouches(s, id, plan, now);
  }

  lemma QueryTouches(s: Books, id: nat, query: TradeAnswer, plan: Option<int>, now: int)
    requires id in s.orders
    ensures OnlyTouches(s, AfterQuery(s, id, query, plan, now).0, id)
  {
    match query
    case TradePaid(tradeNo) => PaymentTouches(Apply(s, RecordTrade(id, Alipay, tradeNo)), id, plan, now);
    case TradeClosed => RetryTouches(Apply(s, CloseOrder(id)), id, plan, now);
    case _ => RetryTouches(s, id, plan, now);
  }

  lemma DetectionTouches(s: Books, user: int, id: nat, query: TradeAnswer, plan: Option<int>, now: int)
    ensures OnlyTouches(s, AfterDetect(s, user, id, query, plan, now).0, id)
  {
    if id in s.orders {
      QueryTouches(s, id, query, plan, now);
      RetryTouches(s, id, plan, now);
    }
  }

  // ---- the failing inputs are reached ----

  const WAITING := [CreateOrder(1, 1, 100, 10)]

  lemma WaitingIsLegal()
    ensures Legal(WAITING) && After(WAITING) == Apply(EMPTY_BOOKS, WAITING[0])
  {
    assert Legal([]) && [] + [WAITING[0]] == WAITING;
    LegalExtend([], WAITING[0]);
  }

  /** A callback was saved and its request failed right after: the provider's retry is answered with success and does nothing. */
  lemma LostCallbackIsReached(channel: Channel)
    ensures var txs := WAITING + [SaveCallback(channel, "c")];
            var s := After(txs);
            && Legal(txs) && s.orders[1].status == AwaitingPayment && PlanOk(s, 1, Some(30))
            && TradeIsNew(s, channel, "t") && AfterCallback(s, channel, "c", "t", 1, true, Some(30), 0) == (s, Ok(s.orders[1]))
  {
    WaitingIsLegal();
    LegalExtend(WAITING, SaveCallback(channel, "c"));
  }

  function Stranded(channel: Channel): seq<Tx> { WAITING + [SaveCallback(channel, "c")] + [RecordTrade(1, channel, "t")] }

  lemma StrandedIsLegal(channel: Channel)
    ensures Legal(Stranded(channel))
    ensures After(Stranded(channel)) == Books(map[1 := Order(1, AwaitingPayment, Unpaid, Pending, 100, 10)],
                                              map[(channel, "t") := 1], {(channel, "c")}, [])
  {
    WaitingIsLegal();
    LegalExtend(WAITING, SaveCallback(channel, "c"));
    LegalExtend(WAITING + [SaveCallback(channel, "c")], RecordTrade(1, channel, "t"));
  }

  /** A trade was recorded and the order could not be marked paid: a later callback for it succeeds and the order waits. */
  lemma StrandedTradeIsReached(channel: Channel)
    ensures var s := After(Stranded(channel));
            var (s', r) := AfterCallback(s, channel, "d", "t", 1, true, Some(30), 0);
            Legal(Stranded(channel)) && PlanOk(s, 1, Some(30)) && r.Ok? && s'.orders[1].status == AwaitingPayment
  {
    StrandedIsLegal(channel);
    var s := After(Stranded(channel));
    RunKeepsInv(Stranded(channel));
    OpenOrderSettlesIff(s, channel, "d", "t", 1, true, Some(30), 0);
  }

  /** An Alipay trade stranded so is settled by asking the provider, which reports it paid. */
  lemma StrandedAlipayTradeIsDetected()
    ensures var s := After(Stranded(Alipay));
            && 1 in s.orders && IsSettled(AfterDetect(s, 1, 1, TradePaid("t"), Some(30), 0).0.orders[1])
  {
    StrandedIsLegal(Alipay);
    RunKeepsInv(Stranded(Alipay));
    DetectionSettlesIff(After(Stranded(Alipay)), 1, 1, TradePaid("t"), Some(30), 0);
  }

  const REFUNDED := WAITING + [MarkOrderPaid(1)] + [MarkEntitlementFailed(1)] + [MarkOrderRefunded(1)]

  lemma RefundedIsLegal()
    ensures Legal(REFUNDED)
    ensures After(REFUNDED) == Books(map[1 := Order(1, Refunded, PaidUp, Revoked, 100, 10)], map[], {}, [])
  {
    WaitingIsLegal();
    LegalExtend(WAITING, MarkOrderPaid(1));
    LegalExtend(WAITING + [MarkOrderPaid(1)], MarkEntitlementFailed(1));
    LegalExtend(WAITING + [MarkOrderPaid(1)] + [MarkEntitlementFailed(1)], MarkOrderRefunded(1));
  }

  /** Refunded after its fulfilment failed: fulfilling it again grants what was never granted, and the order stays refunded. */
  lemma RefundedWithoutGrantIsReached()
    ensures Legal(REFUNDED) && 1 in After(REFUNDED).orders && !HasGrant(After(REFUNDED), 1)
    ensures var s' := AfterFulfil(After(REFUNDED), 1, Some(30), 0);
            HasGrant(s', 1) && s'.orders[1].status == Refunded
  {
    RefundedIsLegal();
    RunKeepsInv(REFUNDED);
    FulfilSettlesIff(After(REFUNDED), 1, Some(30), 0, 0);
  }

  // ---- the service among other requests ----

  /** Fulfilled, possibly refunded since, with its grant in the ledger. */
  predicate Settled(s: Books, id: nat) {
    id in s.orders && WasFulfilled(s.orders[id]) && HasGrant(s, id)
  }

  lemma SettledStays(s: Books, s': Books, id: nat)
    requires Settled(s, id) && Grows(s, s')
    ensures Settled(s', id)
  {
    GrantStays(s, s', id);
  }

  /** What a successful transaction leaves for good. */
  predicate Done(s: Books, t: Tx) {
    match t
    case SaveCallback(channel, callbackId) => (channel, callbackId) in s.callbacks
    case RecordTrade(id, channel, tradeNo) => (channel, tradeNo) in s.trades && s.trades[(channel, tradeNo)] == id
    case MarkOrderPaid(id) => IsPaid(s, id)
    case Grant(id, _, _) => HasGrant(s, id)
    case MarkOrderFulfilled(id) => Settled(s, id)
    case MarkOrderRefunded(id) => id in s.orders && s.orders[id].status == Refunded
    case _ => true
  }

  lemma ApplyIsDone(s: Books, t: Tx)
    requires Allowed(s, t) && Accepts(s, t)
    ensures Done(Apply(s, t), t)
  {
    if t.Grant? { GrantLeavesKey(s, t.id, t.days, t.now); }
  }

  /** What is still known about an order that was read before as o. */
  ghost predicate Seen(s: Books, id: nat, o: Order) {
    && id in s.orders && OrderMoves(o, s.orders[id])
    && (NeedsRetry(o) ==> o.payment == PaidUp)
    && (IsSettled(o) ==> HasGrant(s, id))
  }

  /** A successful response shows a settled order. */
  ghost predicate SettledReply(s: Books, id: nat, r: Response) {
    r.Ok? ==> Settled(s, id) && WasFulfilled(r.order) && Seen(s, id, r.order)
  }

  /** A successful response shows an order that needs no retry, or one that is settled by now. */
  ghost predicate FinishedReply(s: Books, id: nat, r: Response) {
    r.Ok? ==> Seen(s, id, r.order) && (Settled(s, id) || !NeedsRetry(r.order))
  }

  /** A successful Alipay response: amount and trade are the order's, and it is settled or needed no retry when read. */
  ghost predicate JudgedReply(s: Books, id: nat, r: Response, read: Order, tradeNo: string)
    requires r.Ok?
  {
    && Seen(s, id, r.order) && Seen(s, id, read) && read.amount == r.order.amount
    && TradeIsOwn(s, Alipay, tradeNo, id) && (Settled(s, id) || !NeedsRetry(read))
  }

  lemma SeenStays(s: Books, s': Books, id: nat, o: Order)
    requires Seen(s, id, o) && Grows(s, s')
    ensures Seen(s', id, o)
  {
    if IsSettled(o) { GrantStays(s, s', id); }
  }

  lemma JustSeen(s: Books, id: nat)
    requires Inv(s) && id in s.orders
    ensures Seen(s, id, s.orders[id])
  {
    assert OrderOk(s, id);
  }

  /** Applied; declined by its guard; or the store failed. */
  datatype TxResult = Applied | Declined | Faulted

  class PaymentService {
    var books: Books
    /** Whether requests run one at a time and no call fails. */
    const alone: bool

    constructor (alone: bool)
      ensures books == EMPTY_BOOKS && Inv(books) && this.alone == alone
    {
      books := EMPTY_BOOKS;
      this.alone := alone;
    }

    /** Transactions of other requests. */
    method Interfere()
      requires Inv(books)
      modifies this
      ensures Inv(books) && Grows(old(books), books) && (alone ==> books == old(books))
    {
      var n: nat := *;
      if alone {
        n := 0;
      }
      while n > 0
        invariant Inv(books) && Grows(old(books), books) && (alone ==> n == 0 && books == old(books))
      {
        var t: Tx := *;
        if Allowed(books, t) {
          ApplyKeepsInv(books, t);
          books := Apply(books, t);
        }
        n := n - 1;
      }
    }

    /** One store call: others may run first, and it may fail. */
    method TryDo(t: Tx) returns (result: TxResult)
      requires Inv(books) && Allowed(books, t)
      modifies this
      ensures Inv(books) && Grows(old(books), books)
      ensures result.Applied? ==> Done(books, t)
      ensures result.Declined? ==> !Accepts(books, t)
      ensures alone ==> books == Apply(old(books), t) && result == if Accepts(old(books), t) then Applied else Declined
    {
      Interfere();
      AllowedStays(old(books), books, t);
      var fault: bool := *;
      if !alone && fault {
        return Faulted;
      }
      if !Accepts(books, t) {
        return Declined;
      }
      ApplyKeepsInv(books, t);
      ApplyIsDone(books, t);
      GrowsTransitive(old(books), books, Apply(books, t));
      books := Apply(books, t);
      result := Applied;
    }

    /** A store call whose two ways of not succeeding are treated alike. */
    method Do(t: Tx) returns (ok: bool)
      requires Inv(books) && Allowed(books, t)
      modifies this
      ensures Inv(books) && Grows(old(books), books)
      ensures ok ==> Done(books, t)
      ensures alone ==> books == Apply(old(books), t) && ok == Accepts(old(books), t)
    {
      var result := TryDo(t);
      ok := result.Applied?;
    }

    /** Reads one order; None when there is no such order or the read failed. */
    method GetOrder(id: nat) returns (o: Option<Order>)
      requires Inv(books)
      modifies this
      ensures Inv(books) && Grows(old(books), books)
      ensures o.Some? ==> Seen(books, id, o.value) && o.value == books.orders[id]
      ensures alone ==> books == old(books) && (o.Some? <==> id in books.orders)
    {
      Interfere();
      if id in books.orders { JustSeen(books, id); }
      var fault: bool := *;
      o := if id in books.orders && (alone || !fault) then Some(books.orders[id]) else None;
    }

    /** Grants the order its membership and marks it fulfilled; o is how the caller last saw the order. */
    method FulfillMembership(id: nat, o: Order, plan: Option<int>, now: int) returns (done: bool)
      requires Inv(books) && IsPaid(books, id) && Seen(books, id, o)
      requires alone ==> o == books.orders[id]
      modifies this
      ensures Inv(books) && Grows(old(books), books)
      ensures done ==> Settled(books, id)
      ensures done && alone ==> IsSettled(books.orders[id])
      ensures alone ==> if done then books == AfterFulfil(old(books), id, plan, now)
                        else Apply(books, MarkEntitlementFailed(id)) == AfterFulfil(old(books), id, plan, now)
    {
      if IsSettled(o) {
        return true;
      }
      var current := GetOrder(id);
      if current.None? || plan.None? {
        return false;
      }
      var granted := Do(Grant(id, plan.value, now));
      if !granted {
        return false;
      }
      done := Do(MarkOrderFulfilled(id));
    }

    /** The fulfilment step of every path: a failure is recorded on the order. */
    method FulfilOrMarkFailed(id: nat, o: Order, plan: Option<int>, now: int) returns (done: bool)
      requires Inv(books) && IsPaid(books, id) && Seen(books, id, o)
      requires alone ==> o == books.orders[id]
      modifies this
      ensures Inv(books) && Grows(old(books), books)
      ensures done ==> Settled(books, id)
      ensures done && alone ==> IsSettled(books.orders[id])
      ensures alone ==> books == AfterFulfil(old(books), id, plan, now) && done == IsSettled(books.orders[id])
    {
      done := FulfillMembership(id, o, plan, now);
      if !done {
        var marked := Do(MarkEntitlementFailed(id));
      }
    }

    method Reread(id: nat) returns (r: Response)
      requires Inv(books)
      modifies this
      ensures Inv(books) && Grows(old(books), books) && (alone ==> books == old(books) && r.Ok? == (id in books.orders))
      ensures r.Ok? ==> Seen(books, id, r.order) && r.order == books.orders[id]
      ensures r.Ok? || r == Err(NotFound)
      ensures old(Settled(books, id)) ==> Settled(books, id)
    {
      var o := GetOrder(id);
      if old(Settled(books, id)) {
        SettledStays(old(books), books, id);
      }
      r := if o.Some? then Ok(o.value) else Err(NotFound);
    }

    /** Fulfils the order and reads it again; o is how the caller last saw it. */
    method FulfilAndReread(id: nat, o: Order, plan: Option<int>, now: int) returns (r: Response)
      requires Inv(books) && IsPaid(books, id) && Seen(books, id, o)
      requires alone ==> o == books.orders[id]
      modifies this
      ensures Inv(books) && Grows(old(books), books)
      ensures SettledReply(books, id, r)
      ensures alone ==> (books, r) == Replied(AfterFulfil(old(books), id, plan, now), id)
    {
      var done := FulfilOrMarkFailed(id, o, plan, now);
      if !done {
        return Err(FulfilmentFailed);
      }
      r := Reread(id);
    }

    /** Marks the order paid and fulfils it. */
    method PayAndFulfil(id: nat, plan: Option<int>, now: int) returns (r: Response)
      requires Inv(books) && id in books.orders
      modifies this
      ensures Inv(books) && Grows(old(books), books)
      ensures SettledReply(books, id, r)
      ensures alone ==> (books, r) == AfterPayment(old(books), id, plan, now)
    {
      var paid := Do(MarkOrderPaid(id));
      if !paid {
        return Err(NotPayable);
      }
      JustSeen(books, id);
      r := FulfilAndReread(id, books.orders[id], plan, now);
    }

    /** Attempt, payment and fulfilment for a trade that is not on record yet. */
    method SettleTrade(id: nat, channel: Channel, tradeNo: string, plan: Option<int>, now: int) returns (r: Response)
      requires Inv(books) && id in books.orders
      modifies this
      ensures Inv(books) && Grows(old(books), books)
      ensures SettledReply(books, id, r) && (r.Ok? ==> TradeIsOwn(books, channel, tradeNo, id))
      ensures alone ==> (books, r) == AfterTrade(old(books), id, channel, tradeNo, plan, now)
    {
      var recorded := Do(RecordTrade(id, channel, tradeNo));
      if !recorded {
        return Err(StoreFailed);
      }
      r := PayAndFulfil(id, plan, now);
    }

    /** Refuses what cannot be paid; an expired order is closed. */
    method CheckPayable(id: nat, o: Order, now: int) returns (blocked: Option<Error>)
      requires Inv(books)
      modifies this
      ensures Inv(books) && Grows(old(books), books)
      ensures blocked == EnsurePayable(o, now)
      ensures alone ==> books == if blocked == Some(Expired) then Apply(old(books), CloseOrder(id)) else old(books)
    {
      blocked := EnsurePayable(o, now);
      if blocked == Some(Expired) {
        var closed := Do(CloseOrder(id));
      }
    }

    method CheckCallback(id: nat, o: Order, now: int) returns (blocked: Option<Error>)
      requires Inv(books)
      modifies this
      ensures Inv(books) && Grows(old(books), books)
      ensures blocked == CallbackBlocked(o, now)
      ensures alone ==> books == if blocked == Some(Expired) then Apply(old(books), CloseOrder(id)) else old(books)
    {
      if o.status == Paid || o.status == Fulfilled {
        return None;
      }
      blocked := CheckPayable(id, o, now);
    }

    method PayMock(user: int, id: nat, tradeNo: string, plan: Option<int>, now: int) returns (r: Response)
      requires Inv(books)
      modifies this
      ensures Inv(books) && Grows(old(books), books)
      ensures SettledReply(books, id, r)
      ensures alone ==> (books, r) == AfterPay(old(books), user, id, tradeNo, plan, now)
    {
      var o := GetOrder(id);
      if o.None? || o.value.user != user {
        return Err(NotFound);
      }
      var blocked := CheckPayable(id, o.value, now);
      if blocked.Some? {
        return Err(blocked.value);
      }
      r := SettleTrade(id, Mock, tradeNo, plan, now);
    }

    method ProcessMockCallback(callbackId: string, tradeNo: string, id: nat, success: bool, plan: Option<int>, now: int)
      returns (r: Response, ghost duplicate: bool)
      requires Inv(books)
      modifies this
      ensures Inv(books) && Grows(old(books), books)
      ensures duplicate ==> (Mock, callbackId) in books.callbacks
      ensures !duplicate ==> FinishedReply(books, id, r)
      ensures !duplicate && r.Ok? ==> success && (Mock, callbackId) in books.callbacks && TradeIsOwn(books, Mock, tradeNo, id)
      ensures alone ==> duplicate == ((Mock, callbackId) in old(books).callbacks)
      ensures alone ==> (books, r) == AfterCallback(old(books), Mock, callbackId, tradeNo, id, success, plan, now)
    {
      var saved := TryDo(SaveCallback(Mock, callbackId));
      duplicate := saved.Declined?;
      if saved.Faulted? {
        return Err(StoreFailed), false;
      }
      if saved.Declined? {
        r := Reread(id);
        return;
      }
      r := HandleMockCallback(tradeNo, id, success, plan, now);
    }

    method HandleMockCallback(tradeNo: string, id: nat, success: bool, plan: Option<int>, now: int) returns (r: Response)
      requires Inv(books)
      modifies this
      ensures Inv(books) && Grows(old(books), books)
      ensures FinishedReply(books, id, r) && (r.Ok? ==> success && TradeIsOwn(books, Mock, tradeNo, id))
      ensures alone ==> (books, r) == AfterSaved(old(books), Mock, tradeNo, id, success, plan, now)
    {
      var o := GetOrder(id);
      if o.None? {
        return Err(NotFound);
      }
      if !success {
        return Err(PaymentRejected);
      }
      var blocked := CheckCallback(id, o.value, now);
      if blocked.Some? {
        return Err(blocked.value);
      }
      r := ResolveMockTrade(tradeNo, id, plan, now);
    }

    /** The order is read again before a trade already on record is judged. */
    method ResolveMockTrade(tradeNo: string, id: nat, plan: Option<int>, now: int) returns (r: Response)
      requires Inv(books) && id in books.orders
      modifies this
      ensures Inv(books) && Grows(old(books), books)
      ensures FinishedReply(books, id, r) && (r.Ok? ==> TradeIsOwn(books, Mock, tradeNo, id))
      ensures alone ==> (books, r) == AfterResolve(old(books), Mock, tradeNo, id, plan, now)
    {
      Interfere();
      if (Mock, tradeNo) !in books.trades {
        r := SettleTrade(id, Mock, tradeNo, plan, now);
        return;
      }
      var owner := books.trades[(Mock, tradeNo)];
      var existing := GetOrder(id);
      if existing.None? {
        return Err(NotFound);
      }
      if owner != id {
        return Err(Conflict);
      }
      r := RetryFulfilment(id, existing.value, plan, now);
    }

    /** read is the reading of the order by which a callback that is no duplicate was judged. */
    method ProcessAlipayCallback(verified: bool, tradeDone: bool, notifyId: string, tradeNo: string, id: nat, amount: int,
                                 plan: Option<int>, now: int) returns (r: Response, ghost duplicate: bool, ghost read: Option<Order>)
      requires Inv(books)
      modifies this
      ensures Inv(books) && Grows(old(books), books)
      ensures !verified || !tradeDone ==> books == old(books) && r == if verified then Ignored else Err(NotVerified)
      ensures duplicate ==> (Alipay, notifyId) in books.callbacks
      ensures !duplicate && r.Ok? ==> (
                && (Alipay, notifyId) in books.callbacks && read.Some? && r.order.amount == amount
                && JudgedReply(books, id, r, read.value, tradeNo))
      ensures alone && verified && tradeDone ==> duplicate == ((Alipay, notifyId) in old(books).callbacks)
      ensures var accepted := id in old(books).orders && amount == old(books).orders[id].amount;
              alone && verified && tradeDone
              ==> (books, r) == AfterCallback(old(books), Alipay, notifyId, tradeNo, id, accepted, plan, now)
    {
      duplicate, read := false, None;
      if !verified {
        r := Err(NotVerified);
        return;
      }
      if !tradeDone {
        r := Ignored;
        return;
      }
      var saved := TryDo(SaveCallback(Alipay, notifyId));
      duplicate := saved.Declined?;
      if saved.Faulted? {
        r := Err(StoreFailed);
        return;
      }
      if saved.Declined? {
        r := Reread(id);
        return;
      }
      r, read := HandleAlipayCallback(tradeNo, id, amount, plan, now);
    }

    method HandleAlipayCallback(tradeNo: string, id: nat, amount: int, plan: Option<int>, now: int)
      returns (r: Response, ghost read: Option<Order>)
      requires Inv(books)
      modifies this
      ensures Inv(books) && Grows(old(books), books)
      ensures r.Ok? ==> read.Some? && r.order.amount == amount && JudgedReply(books, id, r, read.value, tradeNo)
      ensures var accepted := id in old(books).orders && amount == old(books).orders[id].amount;
              alone ==> (books, r) == AfterSaved(old(books), Alipay, tradeNo, id, accepted, plan, now)
      ensures alone && r.Ok? ==> id in old(books).orders && read == Some(old(books).orders[id])
    {
      var o := GetOrder(id);
      read := o;
      if o.None? {
        r := Err(NotFound);
        return;
      }
      ghost var seen := books;
      var refused := CheckAlipayCallback(id, o.value, amount, now);
      if refused.Some? {
        r := Err(refused.value);
        return;
      }
      SeenStays(seen, books, id, o.value);
      r := ResolveAlipayTrade(tradeNo, id, o.value, plan, now);
    }

    method CheckAlipayCallback(id: nat, o: Order, amount: int, now: int) returns (refused: Option<Error>)
      requires Inv(books)
      modifies this
      ensures Inv(books) && Grows(old(books), books)
      ensures refused == if amount != o.amount then Some(AmountMismatch) else CallbackBlocked(o, now)
      ensures alone ==> books == if refused == Some(Expired) then Apply(old(books), CloseOrder(id)) else old(books)
    {
      if amount != o.amount {
        return Some(AmountMismatch);
      }
      refused := CheckCallback(id, o, now);
    }

    /** The order is judged as it was read before; o is that reading. */
    method ResolveAlipayTrade(tradeNo: string, id: nat, o: Order, plan: Option<int>, now: int) returns (r: Response)
      requires Inv(books) && Seen(books, id, o)
      requires alone ==> o == books.orders[id]
      modifies this
      ensures Inv(books) && Grows(old(books), books)
      ensures r.Ok? ==> JudgedReply(books, id, r, o, tradeNo)
      ensures alone ==> (books, r) == AfterResolve(old(books), Alipay, tradeNo, id, plan, now)
    {
      ghost var seen := books;
      Interfere();
      if (Alipay, tradeNo) !in books.trades {
        r := SettleTrade(id, Alipay, tradeNo, plan, now);
        SeenStays(seen, books, id, o);
        return;
      }
      if books.trades[(Alipay, tradeNo)] != id {
        return Err(Conflict);
      }
      SeenStays(seen, books, id, o);
      if NeedsRetry(o) {
        r := FulfilAndReread(id, o, plan, now);
      } else {
        r := Reread(id);
      }
      SeenStays(seen, books, id, o);
    }

    /** Fulfils an order read as paid, or as failed to fulfil, again. */
    method RetryFulfilment(id: nat, o: Order, plan: Option<int>, now: int) returns (r: Response)
      requires Inv(books) && Seen(books, id, o)
      requires alone ==> o == books.orders[id]
      modifies this
      ensures Inv(books) && Grows(old(books), books)
      ensures FinishedReply(books, id, r) && (r.Ok? ==> Settled(books, id) || !NeedsRetry(o))
      ensures alone ==> (books, r) == AfterRetry(old(books), id, plan, now)
    {
      if NeedsRetry(o) {
        r := FulfilAndReread(id, o, plan, now);
      } else {
        r := Ok(o);
      }
    }

    method RedetectAdmin(id: nat, plan: Option<int>, now: int) returns (r: Response)
      requires Inv(books)
      modifies this
      ensures Inv(books) && Grows(old(books), books)
      ensures FinishedReply(books, id, r)
      ensures alone ==> (books, r) == if id in old(books).orders then AfterRetry(old(books), id, plan, now)
                                      else (old(books), Err(NotFound))
    {
      var o := GetOrder(id);
      if o.None? {
        return Err(NotFound);
      }
      r := RetryFulfilment(id, o.value, plan, now);
    }

    method RegrantMembership(id: nat, plan: Option<int>, now: int) returns (r: Response)
      requires Inv(books)
      modifies this
      ensures Inv(books) && Grows(old(books), books)
      ensures SettledReply(books, id, r)
      ensures alone ==> (books, r) == AfterRegrant(old(books), id, plan, now)
    {
      var o := GetOrder(id);
      if o.None? {
        return Err(NotFound);
      }
      if o.value.payment != PaidUp {
        return Err(NotPayable);
      }
      r := FulfilAndReread(id, o.value, plan, now);
    }

    /** Records the provider's trade unless it is on record, then pays and fulfils. */
    method SettleDetected(id: nat, tradeNo: string, plan: Option<int>, now: int) returns (r: Response)
      requires Inv(books) && id in books.orders
      modifies this
      ensures Inv(books) && Grows(old(books), books)
      ensures SettledReply(books, id, r)
      ensures alone ==> (books, r) == AfterQuery(old(books), id, TradePaid(tradeNo), plan, now)
    {
      var onRecord := RecordIfNew(id, tradeNo);
      if !onRecord {
        return Err(StoreFailed);
      }
      r := PayAndFulfil(id, plan, now);
    }

    method RecordIfNew(id: nat, tradeNo: string) returns (onRecord: bool)
      requires Inv(books) && id in books.orders
      modifies this
      ensures Inv(books) && Grows(old(books), books)
      ensures onRecord ==> !TradeIsNew(books, Alipay, tradeNo)
      ensures alone ==> onRecord && books == Apply(old(books), RecordTrade(id, Alipay, tradeNo))
    {
      Interfere();
      if (Alipay, tradeNo) in books.trades {
        return true;
      }
      onRecord := Do(RecordTrade(id, Alipay, tradeNo));
    }

    /** Asks the provider about an unpaid order, settles what it reports paid, and retries what failed. */
    method Detect(user: int, id: nat, query: TradeAnswer, plan: Option<int>, now: int) returns (r: Response)
      requires Inv(books)
      modifies this
      ensures Inv(books) && Grows(old(books), books)
      ensures FinishedReply(books, id, r)
      ensures alone ==> (books, r) == AfterDetect(old(books), user, id, query, plan, now)
    {
      var o := GetOrder(id);
      if o.None? || o.value.user != user {
        return Err(NotFound);
      }
      if !query.NoClient? && (o.value.status == AwaitingPayment || o.value.payment == Unpaid) {
        r := DetectOpen(id, o.value, query, plan, now);
      } else {
        r := RetryFulfilment(id, o.value, plan, now);
      }
    }

    /** Acts on the provider's answer about an unpaid order. */
    method DetectOpen(id: nat, o: Order, query: TradeAnswer, plan: Option<int>, now: int) returns (r: Response)
      requires Inv(books) && Seen(books, id, o)
      requires alone ==> o == books.orders[id]
      modifies this
      ensures Inv(books) && Grows(old(books), books)
      ensures FinishedReply(books, id, r)
      ensures alone ==> (books, r) == AfterQuery(old(books), id, query, plan, now)
    {
      if query.TradePaid? {
        r := SettleDetected(id, query.tradeNo, plan, now);
        if r.Ok? {
          r := RetryFulfilment(id, r.order, plan, now);
        }
      } else if query.TradeClosed? {
        r := CloseAndRetry(id, plan, now);
      } else {
        r := RetryFulfilment(id, o, plan, now);
      }
    }

    method CloseAndRetry(id: nat, plan: Option<int>, now: int) returns (r: Response)
      requires Inv(books) && id in books.orders
      modifies this
      ensures Inv(books) && Grows(old(books), books)
      ensures FinishedReply(books, id, r)
      ensures alone ==> (books, r) == AfterRetry(Apply(old(books), CloseOrder(id)), id, plan, now)
    {
      var closed := Do(CloseOrder(id));
      var next := GetOrder(id);
      if next.None? {
        return Err(NotFound);
      }
      r := RetryFulfilment(id, next.value, plan, now);
    }

    /** After a full refund has succeeded: revoke the membership, mark the order refunded; failures are only logged. */
    method FinalizeFullRefund(id: nat, refundNo: string, now: int)
      requires Inv(books) && id in books.orders
      modifies this
      ensures Inv(books) && Grows(old(books), books)
      ensures alone ==> books == AfterFullRefund(old(books), id, refundNo, now)
    {
      var revoked := Do(Revoke(id, refundNo, now));
      var refunded := Do(MarkOrderRefunded(id));
    }
  }
}

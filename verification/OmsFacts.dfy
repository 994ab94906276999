/**
 What single steps of the OMS tell the world, read from the other side: the table by where a status
 may come from, the orders after each answer, and which events and alerts go out.
 */
module OmsFacts {
  import opened Domain
  import opened PositionBook
  import opened Oms

  // ---- The table, by target ---------------------------------------------------------------------------

  /** Sent and not answered for certain. */
  predicate Awaiting(s: OrderStatus) { s in {SUBMITTED, UNKNOWN} }

  /** Known to rest at the broker. */
  predicate Resting(s: OrderStatus) { s in {TRIGGER_PENDING, OPEN, PARTIALLY_FILLED} }

  /**
   Where each status may be reached from: fills from anything sent and live, a cancel too unless the
   order is being modified, an expiry unless a request is pending, a rejection only before the broker
   has taken the order, and a resting status from an answer, a trigger or a modification.
   */
  lemma MovesByTarget(from: OrderStatus)
    ensures CanMove(from, FILLED) <==> !from.IsTerminal() && from != PENDING_NEW
    ensures CanMove(from, PARTIALLY_FILLED) <==> !from.IsTerminal() && from != PENDING_NEW
    ensures CanMove(from, CANCELLED) <==> Awaiting(from) || Resting(from) || from == PENDING_CANCEL
    ensures CanMove(from, EXPIRED) <==> Awaiting(from) || Resting(from)
    ensures CanMove(from, REJECTED) <==> Awaiting(from) || from == PENDING_NEW
    ensures CanMove(from, OPEN) <==> Awaiting(from) || from in {TRIGGER_PENDING, PENDING_MODIFY}
    ensures CanMove(from, TRIGGER_PENDING) <==> Awaiting(from) || from == PENDING_MODIFY
    ensures CanMove(from, PENDING_CANCEL) <==> Resting(from)
    ensures CanMove(from, UNKNOWN) <==> from == SUBMITTED
    ensures CanMove(from, SUBMITTED) <==> from == PENDING_NEW
    ensures !CanMove(from, PENDING_NEW) && !CanMove(from, PENDING_MODIFY)
  {
  }

  // ---- Answers --------------------------------------------------------------------------------------------

  /** Where an order ends when the broker says it is now in a status: there if the table allows, else where it was. */
  function Settled(from: OrderStatus, to: OrderStatus): OrderStatus { if CanMove(from, to) then to else from }

  /** _advance, not forced: along the table or not at all, one version further exactly when it moves; a partial fill may follow itself. */
  lemma AdvancedExactly(c: Core, coid: string, next: OrderStatus)
    requires coid in c.orders
    ensures
      var was, c' := c.orders[coid], Advance(c, coid, next);
      c' == c.(orders := c.orders[coid := was.(status := Settled(was.status, next),
                                               version := was.version + if CanMove(was.status, next) then 1 else 0)])
  {
    SelfMoves(c.orders[coid].status);
    hide CanMove;
  }

  /** What a submission does: a routed order is held, logged and sent, in that order's own id; anything else does nothing. */
  lemma SubmitDoes(s: State, intent: Intent, coid: string, quantity: Option<int>, gate: Option<int>, now: int)
    ensures
      var d, s' := Decide(s.core, intent, coid, quantity, gate, now), Next(s, Submit(intent, coid, quantity, gate, now));
      && (d.Route? ==>
            && s'.core == s.core.(orders := s.core.orders[coid := d.order])
            && s'.log == s.log + [OrderSubmitted(d.order)] && s'.placed == s.placed + [coid])
      && (!d.Route? ==> s'.core == s.core && s'.log == s.log && s'.placed == s.placed)
  {
    hide Decide;
  }

  /** Why a submission is refused: the first of these that holds. */
  lemma BlockedBecause(c: Core, intent: Intent, coid: string, quantity: Option<int>, gate: Option<int>, now: int)
    requires Decide(c, intent, coid, quantity, gate, now).Blocked?
    ensures
      var why := Decide(c, intent, coid, quantity, gate, now).why;
      var asked := if quantity.Some? then quantity else if intent.quantity.Some? then Some(intent.quantity.value) else None;
      if intent.bookId != c.book.bookId then why == "other book"
      else if gate.None? then why == "no risk gate"
      else if intent.ReduceOnly() && (Reducible(c, intent) <= 0 || (asked.Some? && asked.value <= 0)) then why == "nothing left to reduce"
      else if gate.value <= 0 then why == "rejected by the gate"
      else why == "unsized"
  {
    hide Reducible;
  }

  /** Which placements are awaited: a routed order joins, its answer leaves, a restart forgets all. */
  lemma AwaitedExactly(s: State, step: Step, coid: string)
    ensures
      var routed := step.Submit? && Decide(s.core, step.intent, step.coid, step.quantity, step.gate, step.now).Route?;
      coid in Next(s, step).inflight <==>
        !step.Restart? && ((routed && step.coid == coid) || (coid in s.inflight && !(step.Placed? && step.coid == coid)))
  {
    hide Decide, AdoptFills, OnFill, Replay, PlaceReturned, OnUpdate, TagResolved, TagAbsent;
  }

  /** The answer to a placement: rejected, unknown and to be looked up afresh, or taken under the broker's id unless an update came first. */
  lemma PlacedExactly(c: Core, coid: string, outcome: Placement)
    requires coid in c.orders
    ensures
      var was, e := c.orders[coid], PlaceReturned(c, coid, outcome);
      var now := e.core.orders[coid];
      && e.core.book == c.book && e.core.orders.Keys == c.orders.Keys
      && (forall k | k in c.orders && k != coid :: e.core.orders[k] == c.orders[k])
      && now == was.(status := now.status, brokerOrderId := now.brokerOrderId, version := now.version)
      && (outcome.NotPlaced? ==>
            now.status == REJECTED && now.brokerOrderId == was.brokerOrderId
              && e.events == [OrderRejected(coid, was.intent.bookId, outcome.reason)])
      && (outcome.OutcomeUnknown? ==>
            && now.status == UNKNOWN && now.brokerOrderId == was.brokerOrderId
            && e.core.unknownChecks == c.unknownChecks[coid := 0] && e.events == [OrderUnknown(coid, was.intent.bookId)])
      && (outcome.Acked? && was.status != SUBMITTED ==> e.core == c && e.events == [])
      && (outcome.Acked? && was.status == SUBMITTED ==>
            && now.brokerOrderId == Some(outcome.brokerOrderId) && now.status == Settled(SUBMITTED, outcome.status)
            && e.events == [OrderAcked(coid, was.intent.bookId, outcome.brokerOrderId, now.status)])
  {
    hide CanMove;
  }

  /** The event for a status the broker reports: an end as that end, with the fills it reports, anything else as an acknowledgement. */
  function Announced(snap: Snapshot, bookId: string): Event {
    if snap.status == CANCELLED then OrderCancelled(snap.coid, bookId, snap.filledQty)
    else if snap.status == EXPIRED then OrderExpired(snap.coid, bookId, snap.filledQty)
    else if snap.status == REJECTED then OrderRejected(snap.coid, bookId, "BROKER_REJECTED")
    else OrderAcked(snap.coid, bookId, snap.brokerOrderId, snap.status)
  }

  /** A broker update: its id if none was known, its status if it is not a fill's and the table allows, and then one event. */
  lemma UpdatedExactly(c: Core, snap: Snapshot)
    requires snap.coid in c.orders
    ensures
      var was, e := c.orders[snap.coid], OnUpdate(c, snap);
      var now := e.core.orders[snap.coid];
      var moves := snap.status !in {FILLED, PARTIALLY_FILLED} && CanMove(was.status, snap.status);
      && e.core == c.(orders := c.orders[snap.coid := now])
      && now == was.(status := now.status, brokerOrderId := now.brokerOrderId, version := now.version)
      && now.brokerOrderId == (if was.brokerOrderId.Some? then was.brokerOrderId else Some(snap.brokerOrderId))
      && now.status == (if moves then snap.status else was.status)
      && e.events == (if moves then [Announced(snap, was.intent.bookId)] else [])
  {
    SelfMoves(c.orders[snap.coid].status);
    hide CanMove;
  }

  /** Only a partial fill follows itself in the table. */
  lemma SelfMoves(s: OrderStatus)
    ensures CanMove(s, s) ==> s == PARTIALLY_FILLED
  {
  }

  /** An unknown order that is found gets the broker's id at once, and nothing else. */
  lemma FoundExactly(c: Core, coid: string, brokerOrderId: string)
    requires coid in c.orders
    ensures
      var e := TagFound(c, coid, brokerOrderId);
      && e.events == [] && e.core.book == c.book && e.core.unknownChecks == c.unknownChecks
      && e.core.orders == c.orders[coid := c.orders[coid].(brokerOrderId := Some(brokerOrderId), version := c.orders[coid].version + 1)]
  {
  }

  /** Once its fills are adopted, an order still live moves where the broker has it, is no longer looked up, and is acknowledged. */
  lemma AckFoundExactly(c: Core, snap: Snapshot, bookId: string)
    requires snap.coid in c.orders
    ensures
      var from, e := c.orders[snap.coid].status, AckFound(c, snap, bookId);
      var now := e.core.orders[snap.coid].status;
      && e.core.book == c.book && snap.coid !in e.core.unknownChecks
      && (forall k | k in c.unknownChecks && k != snap.coid :: k in e.core.unknownChecks && e.core.unknownChecks[k] == c.unknownChecks[k])
      && now == (if from.IsTerminal() || snap.status in {FILLED, PARTIALLY_FILLED} then from else Settled(from, snap.status))
      && e.events == [OrderAcked(snap.coid, bookId, snap.brokerOrderId, now)]
  {
    SelfMoves(c.orders[snap.coid].status);
    hide CanMove;
  }

  // ---- Alerts and notes -------------------------------------------------------------------------------------

  /** What goes out with a fill of a known order: the overfill alert exactly on an overfill, the fill, the position, the trades. */
  lemma FillEventsAre(c: Core, f: Fill)
    requires f.fillId !in c.book.seen && f.coid in c.orders && f.bookId == c.book.bookId
    ensures
      var o, events := c.orders[f.coid], OnFill(c, f).events;
      var n := if o.filledQty + f.quantity > o.quantity then 1 else 0;
      && n + 2 <= |events| && (n == 1 ==> events[0] == Alert("oms_overfill"))
      && events[n].FillReceived? && events[n].fill == f
      && events[n].orderFilledQty == OnFill(c, f).core.orders[f.coid].filledQty
      && events[n].orderStatus == OnFill(c, f).core.orders[f.coid].status
      && OnFill(c, f).core.orders[f.coid].avgFillPrice == Some(events[n].orderAvgPrice)
      && events[n + 1].PositionChanged? && events[n + 1].fillId == f.fillId
      && forall e | e in events[n + 2..] :: e.TradeClosed? && e.bookId == c.book.bookId
  {
    hide ApplyToLedger, PositionOf, AvgAfter, Recordable;
  }

  /** A fill for no known order raises an alert first, and its shares are booked as delivery shares of an unknown strategy. */
  lemma StrayFillIs(c: Core, f: Fill)
    requires f.fillId !in c.book.seen && f.coid !in c.orders
    ensures
      var e := OnFill(c, f);
      && e.core.orders == c.orders && e.events != [] && e.events[0] == Alert("oms_unknown_fill")
      && (e.raised <==> f.bookId != c.book.bookId)
      && (!e.raised ==>
            && |e.events| == 3 && e.events[1] == FillReceived(f, FILLED, f.quantity, f.price)
            && e.events[2].PositionChanged? && e.events[2].position.key == Key(f.instrument, CNC))
  {
    hide ApplyToLedger;
  }

  /** Lots a stray fill opens belong to nobody. */
  lemma StrayLots(b: BookState, f: Fill)
    requires b.Valid() && f.fillId !in b.seen && f.bookId == b.bookId && b.LedgerAt(Key(f.instrument, CNC)).direction != -f.side.Sign()
    ensures
      var lots := BookStray(b, f).0.LedgerAt(Key(f.instrument, CNC)).lots;
      lots != [] && lots[|lots| - 1].strategy == "unknown" && lots[|lots| - 1].decisionId == f.decisionId
        && lots[|lots| - 1].openedAt == f.ts && lots[|lots| - 1].fillId == f.fillId
  {
  }

  /** A reconciliation that is not cut short ends by recording its verdict, with an alert exactly on drift. */
  lemma ReconcileNotes(c: Core, trades: seq<Fill>, inSync: bool)
    requires !AdoptFills(c, trades).raised
    ensures
      var e, n := Reconcile(c, trades, inSync), |AdoptFills(c, trades).events|;
      && e.core == AdoptFills(c, trades).core && !e.raised
      && e.events[..n] == AdoptFills(c, trades).events && |e.events| == n + (if inSync then 1 else 2)
      && e.events[n] == ReconciliationResult(c.book.bookId, inSync)
      && (!inSync ==> e.events[n + 1] == Alert("SYS_RECON_DRIFT"))
  {
    hide AdoptFills;
  }

  // ---- Versions -----------------------------------------------------------------------------------------------

  /** Whatever changes an order raises its version. */
  ghost predicate Versioned(a: map<string, Order>, b: map<string, Order>) {
    forall k | k in a && k in b :: b[k] == a[k] || a[k].version < b[k].version
  }

  lemma FillVersioned(c: Core, f: Fill)
    ensures Versioned(c.orders, OnFill(c, f).core.orders)
  {
    hide ApplyToLedger, PositionOf, AvgAfter, Recordable, TradeEvents;
  }

  lemma {:induction false} AdoptVersioned(c: Core, fills: seq<Fill>)
    ensures Versioned(c.orders, AdoptFills(c, fills).core.orders)
    decreases |fills|
  {
    if fills != [] {
      FillVersioned(c, fills[0]);
      AdoptVersioned(OnFill(c, fills[0]).core, fills[1..]);
      hide OnFill;
    }
  }

  lemma StepVersioned(s: State, step: Step)
    requires !step.Restart?
    ensures Versioned(s.core.orders, Next(s, step).core.orders)
  {
    var c := s.core;
    hide AdoptFills, Advances, Without, OnFill;
    match step
    case FillArrived(f) => FillVersioned(c, f);
    case TagTrades(snap, trades) =>
      AdoptVersioned(c, trades);
      if snap.coid in c.orders { ResolveVersioned(c, snap, trades); }
    case Reconciliation(trades, _) => AdoptVersioned(c, trades);
    case Submit(_, _, _, _, _) => hide Reducible;
    case _ =>
  }

  lemma ResolveVersioned(c: Core, snap: Snapshot, trades: seq<Fill>)
    requires snap.coid in c.orders && Versioned(c.orders, AdoptFills(c, trades).core.orders)
    ensures Versioned(c.orders, TagResolved(c, snap, trades).core.orders)
  {
    hide AdoptFills, Advances, Without;
  }
}

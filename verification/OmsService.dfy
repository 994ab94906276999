/** The mutable OMS of src/oms/oms.py. Each method is one atomic stretch of the source and is proved to be that step. */
module OmsService {
  import opened Domain
  import opened Sums
  import opened PositionBook
  import opened Oms

  class OMS {
    const clientOrderId: string -> string   // sha256(intent_id)[:16]
    const unknownTimeout: int
    const book: Book
    var orders: map<string, Order>
    var unknownChecks: map<string, nat>
    var log: seq<Event>
    ghost var inflight: set<string>
    ghost var placed: seq<string>

    ghost function Memory(): Core
      reads this, book
    {
      Core(orders, unknownChecks, book.State())
    }

    ghost function State(): State
      reads this, book
    {
      Oms.State(Memory(), log, inflight, placed)
    }

    constructor (clientOrderId: string -> string, unknownTimeout: int, book: Book)
      ensures this.book == book && this.clientOrderId == clientOrderId
      ensures State() == Oms.State(Core(map[], map[], book.State()), [], {}, [])
    {
      this.clientOrderId, this.unknownTimeout, this.book := clientOrderId, unknownTimeout, book;
      orders, unknownChecks, log, inflight, placed := map[], map[], [], {}, [];
    }

    method Reducible(intent: Intent) returns (quantity: int)
      ensures quantity == Oms.Reducible(Memory(), intent)
    {
      var key := intent.PositionKey();
      var ledger := if key in book.ledgers then book.ledgers[key] else EMPTY;
      var position := ledger.Quantity();
      if position == 0 || (0 < position) == intent.side.Buy? {
        return 0;
      }
      var committed, todo := 0, orders.Keys;
      ghost var done: map<string, int> := map[];
      while todo != {}
        invariant todo <= orders.Keys && done.Keys == orders.Keys - todo
        invariant forall c | c in done :: done[c] == Held(orders[c], key)
        invariant committed == Count(done)
        decreases todo
      {
        var c :| c in todo;
        var o, held := orders[c], 0;
        if o.intent.ReduceOnly() && o.intent.PositionKey() == key && !o.status.IsTerminal() {
          held := o.Remaining();
        }
        committed := committed + held;
        CountUpdate(done, c, held);
        done := done[c := held];
        todo := todo - {c};
      }
      assert done == HeldBy(orders, key);
      quantity := Max(0, Abs(position) - committed);
    }

    /** _submit up to the broker call. */
    method Submit(intent: Intent, quantity: Option<int>, gate: Option<int>, now: int) returns (d: Decision)
      modifies this
      ensures d == Decide(old(Memory()), intent, clientOrderId(intent.intentId), quantity, gate, now)
      ensures State() == Next(old(State()), Step.Submit(intent, clientOrderId(intent.intentId), quantity, gate, now))
    {
      hide Oms.Reducible;
      ghost var s := State();
      if intent.bookId != book.bookId {
        assert s.log + [] == s.log;
        return Blocked("other book");
      }
      if gate.None? {
        assert s.log + [] == s.log;
        return Blocked("no risk gate");
      }
      var coid := clientOrderId(intent.intentId);
      if coid in orders {
        assert s.log + [] == s.log;
        return Duplicate(orders[coid]);
      }
      var qty: Option<int> := quantity;
      if qty.None? && intent.quantity.Some? {
        qty := Some(intent.quantity.value);
      }
      if intent.ReduceOnly() {
        var available := Reducible(intent);
        qty := Some(if qty.None? then available else Min(qty.value, available));
        if qty.value <= 0 {
          assert s.log + [] == s.log;
          return Blocked("nothing left to reduce");
        }
      }
      if gate.value <= 0 {
        assert s.log + [] == s.log;
        return Blocked("rejected by the gate");
      }
      var size := if qty.None? then gate.value else Min(qty.value, gate.value);
      if size <= 0 {
        assert s.log + [] == s.log;
        return Blocked("unsized");
      }
      var order := Order(coid, intent, size, SUBMITTED, None, 0, None, now, 0);
      orders := orders[coid := order];
      log := log + [OrderSubmitted(order)];
      inflight, placed := inflight + {coid}, placed + [coid];   // place_order(order)
      return Route(order);
    }

    /** _submit once the broker has answered, or failed to. */
    method PlaceReturned(coid: string, outcome: Placement)
      requires coid in inflight && coid in orders
      modifies this
      ensures State() == Next(old(State()), Placed(coid, outcome))
    {
      hide CanMove;
      var order := orders[coid];
      match outcome {
        case OutcomeUnknown =>
          SetOrder(coid, order.(status := UNKNOWN));
          unknownChecks := unknownChecks[coid := 0];
          log := log + [OrderUnknown(coid, order.intent.bookId)];
        case NotPlaced(reason) =>
          SetOrder(coid, order.(status := REJECTED));
          log := log + [OrderRejected(coid, order.intent.bookId, reason)];
        case Acked(brokerOrderId, status) =>
          if order.status == SUBMITTED {
            SetOrder(coid, order.(brokerOrderId := Some(brokerOrderId)));
            var _ := Advance(coid, status);
            log := log + [OrderAcked(coid, order.intent.bookId, brokerOrderId, orders[coid].status)];
          } else {
            assert log + [] == log;
          }
      }
      inflight := inflight - {coid};
    }

    method OnUpdate(snap: Snapshot)
      modifies this
      ensures State() == Next(old(State()), Update(snap))
    {
      hide CanMove;
      ghost var s := State();
      if snap.coid !in orders {
        log := log + [Alert("oms_unknown_order")];
        return;
      }
      var order := orders[snap.coid];
      if order.brokerOrderId.None? {
        SetOrder(snap.coid, order.(brokerOrderId := Some(snap.brokerOrderId)));
      }
      assert s.log + [] == s.log;
      if snap.status in {FILLED, PARTIALLY_FILLED} {
        return;
      }
      var moved := Advance(snap.coid, snap.status);
      if moved {
        log := log + [UpdateEvent(snap, order.intent.bookId)];
      }
    }

    method OnFill(f: Fill) returns (raised: bool)
      modifies this, book
      ensures raised == Oms.OnFill(old(Memory()), f).raised
      ensures State() == Next(old(State()), FillArrived(f))
    {
      hide ApplyFill;
      ghost var s := State();
      ghost var e := Oms.OnFill(Memory(), f);
      if f.fillId in book.seen {
        assert s.log + [] == s.log;
        return false;
      }
      if f.coid !in orders {
        log := log + [Alert("oms_unknown_fill")];
        var outcome := book.Apply(f, CNC, "unknown", "");
        if outcome.WrongBook? {
          WrongBookKeeps(s.core.book, f, CNC, "unknown", "");
          return true;
        }
        log := log + [FillReceived(f, FILLED, f.quantity, f.price)];
        log := log + [PositionChanged(outcome.position, f.fillId)];
        assert log == s.log + e.events;
        return false;
      }
      var order := orders[f.coid];
      raised := FillOrder(order, f);
    }

    /** The part of _on_fill for a known order. */
    method FillOrder(order: Order, f: Fill) returns (raised: bool)
      requires f.coid in orders && orders[f.coid] == order && f.fillId !in book.seen
      modifies this, book
      ensures inflight == old(inflight) && placed == old(placed)
      ensures
        var e := OnOrderFill(old(Memory()), f);
        Memory() == e.core && log == old(log) + e.events && raised == e.raised
    {
      hide ApplyFill, AvgAfter, TradeEvents, Recordable, PutFilled;
      ghost var c, l := Memory(), log;
      ghost var e := OnOrderFill(c, f);
      var filled, avg := order.filledQty + f.quantity, AvgAfter(order, f);
      if filled > order.quantity {
        log := log + [Alert("oms_overfill")];
        filled := order.quantity;
      }
      var status := if filled == order.quantity then FILLED else PARTIALLY_FILLED;
      UpdateFilled(order, f, filled, avg, status);
      var outcome := book.Apply(f, order.intent.product, order.intent.strategy, order.intent.reason);
      if outcome.WrongBook? {
        WrongBookKeeps(c.book, f, order.intent.product, order.intent.strategy, order.intent.reason);
        return true;
      }
      log := log + [FillReceived(f, status, filled, avg)];
      log := log + [PositionChanged(outcome.position, f.fillId)];
      raised := EmitTrades(outcome.closed);
      assert log == l + e.events;
    }

    /** _set and the forced _advance of a fill. */
    method UpdateFilled(order: Order, f: Fill, filled: nat, avg: real, status: OrderStatus)
      requires f.coid in orders && orders[f.coid] == order
      requires filled == FilledAfter(order, f) && avg == AvgAfter(order, f) && status == StatusAfter(order, f)
      modifies this`orders
      ensures Memory() == PutFilled(old(Memory()), order, f)
    {
      hide AvgAfter, FilledAfter, StatusAfter;
      SetOrder(f.coid, order.(filledQty := filled, avgFillPrice := Some(avg),
                              brokerOrderId := OrElse(f.brokerOrderId, order.brokerOrderId)));
      if status != order.status || status == PARTIALLY_FILLED {
        SetOrder(f.coid, orders[f.coid].(status := status));
      }
    }

    /** One TradeClosed per piece, until one cannot be built. */
    method EmitTrades(closed: seq<ClosedPiece>) returns (raised: bool)
      modifies this`log
      ensures log == old(log) + TradeEvents(book.bookId, Recordable(closed))
      ensures raised == (|Recordable(closed)| < |closed|)
    {
      hide Recordable, TradeEvents;
      NothingEmitted(log, book.bookId, closed);
      var i := 0;
      while i < |closed|
        invariant 0 <= i <= |closed|
        invariant Recordable(closed) == closed[..i] + Recordable(closed[i..])
        invariant log == old(log) + TradeEvents(book.bookId, closed[..i])
      {
        RecordableFrom(closed, i);
        if closed[i].Charges() < 0.0 {
          assert closed[..i] + [] == closed[..i];
          return true;
        }
        OneEmitted(old(log), book.bookId, closed, i);
        log := log + [TradeClosed(book.bookId, closed[i])];
        i := i + 1;
      }
      assert closed[..i] == closed && closed[i..] == [];
      RecordableFrom(closed, i);
      assert closed + [] == closed;
      return false;
    }

    static lemma NothingEmitted(log: seq<Event>, bookId: string, closed: seq<ClosedPiece>)
      ensures log + TradeEvents(bookId, closed[..0]) == log && closed[..0] + Recordable(closed[0..]) == Recordable(closed)
    {
      assert closed[0..] == closed;
    }

    static lemma OneEmitted(log: seq<Event>, bookId: string, closed: seq<ClosedPiece>, i: nat)
      requires i < |closed| && 0.0 <= closed[i].Charges()
      ensures log + TradeEvents(bookId, closed[..i + 1]) == log + TradeEvents(bookId, closed[..i]) + [TradeClosed(bookId, closed[i])]
      ensures closed[..i] + Recordable(closed[i..]) == closed[..i + 1] + Recordable(closed[i + 1..])
    {
      RecordableFrom(closed, i);
      hide Recordable;
      assert closed[..i + 1] == closed[..i] + [closed[i]];
      assert TradeEvents(bookId, closed[..i + 1]) == TradeEvents(bookId, closed[..i]) + [TradeClosed(bookId, closed[i])];
    }

    static lemma RecordableFrom(closed: seq<ClosedPiece>, i: nat)
      requires i <= |closed|
      ensures Recordable(closed[i..]) ==
        if i == |closed| || closed[i].Charges() < 0.0 then [] else [closed[i]] + Recordable(closed[i + 1..])
    {
      if i < |closed| {
        assert closed[i..][0] == closed[i] && closed[i..][1..] == closed[i + 1..];
      }
    }

    static lemma WrongBookKeeps(b: BookState, f: Fill, product: Product, strategy: string, reason: string)
      ensures ApplyFill(b, f, product, strategy, reason).1.WrongBook? ==>
                ApplyFill(b, f, product, strategy, reason).0 == b
    {
      hide ApplyToLedger, PositionOf;
    }

    method AdoptFills(fills: seq<Fill>) returns (raised: bool)
      modifies this, book
      ensures inflight == old(inflight) && placed == old(placed)
      ensures
        var e := Oms.AdoptFills(old(Memory()), fills);
        Memory() == e.core && log == old(log) + e.events && raised == e.raised
    {
      hide Oms.OnFill;
      ghost var e := Oms.AdoptFills(Memory(), fills);
      var i := 0;
      assert fills[0..] == fills;
      while i < |fills|
        invariant 0 <= i <= |fills|
        invariant inflight == old(inflight) && placed == old(placed)
        invariant
          var rest := Oms.AdoptFills(Memory(), fills[i..]);
          rest.core == e.core && log + rest.events == old(log) + e.events && rest.raised == e.raised
      {
        assert fills[i..][0] == fills[i] && fills[i..][1..] == fills[i + 1..];
        ghost var l := log;
        ghost var first := Oms.OnFill(Memory(), fills[i]);
        var failed := OnFill(fills[i]);
        assert log == l + first.events;
        if failed {
          return true;
        }
        assert l + (first.events + Oms.AdoptFills(Memory(), fills[i + 1..]).events)
            == log + Oms.AdoptFills(Memory(), fills[i + 1..]).events;
        i := i + 1;
      }
      return false;
    }

    /** One turn of resolve_unknown's loop, for an order found by its tag. */
    method ResolveFound(snap: Snapshot, trades: seq<Fill>)
      requires snap.coid in orders
      modifies this, book
      ensures State() == Next(Next(old(State()), TagLookup(snap.coid, snap.brokerOrderId)), TagTrades(snap, trades))
    {
      hide Oms.AdoptFills, CanMove;
      ghost var s := State();
      var bookId := orders[snap.coid].intent.bookId;
      SetOrder(snap.coid, orders[snap.coid].(brokerOrderId := Some(snap.brokerOrderId)));
      assert s.log + [] == s.log;
      ghost var s1 := State();
      assert s1 == Next(s, TagLookup(snap.coid, snap.brokerOrderId));
      var raised := AdoptFills(trades);
      if !raised {
        if !orders[snap.coid].status.IsTerminal() && snap.status !in {FILLED, PARTIALLY_FILLED} {
          var _ := Advance(snap.coid, snap.status);
        }
        log := log + [OrderAcked(snap.coid, bookId, snap.brokerOrderId, orders[snap.coid].status)];
        unknownChecks := unknownChecks - {snap.coid};
        assert log == s1.log + TagResolved(s1.core, snap, trades).events;
      }
    }

    /** One turn of resolve_unknown's loop, for an order the broker does not know. */
    method ResolveAbsent(coid: string, now: int)
      requires coid in orders
      modifies this
      ensures State() == Next(old(State()), TagMissing(coid, now, unknownTimeout))
    {
      ghost var s := State();
      var order := orders[coid];
      unknownChecks := unknownChecks[coid := (if coid in unknownChecks then unknownChecks[coid] else 0) + 1];
      if 2 <= unknownChecks[coid] && unknownTimeout <= now - order.submittedAt {
        SetOrder(coid, order.(status := REJECTED));
        log := log + [OrderRejected(coid, order.intent.bookId, "NOT_FOUND_AT_BROKER")];
        unknownChecks := unknownChecks - {coid};
      } else {
        assert s.log + [] == s.log;
      }
    }

    /** Rebuild from the log; refused unless this OMS and its book are fresh. */
    method Restore(events: seq<Event>) returns (ok: bool)
      modifies this, book
      ensures ok <==> old(orders) == map[] && old(book.ledgers) == map[]
      ensures ok ==> Memory() == Replay(old(Memory()), events)
      ensures !ok ==> Memory() == old(Memory())
      ensures log == old(log)
    {
      if orders != map[] || book.ledgers != map[] {
        return false;
      }
      hide ApplyFill;
      ghost var c := Memory();
      for i := 0 to |events|
        invariant Memory() == Replay(c, events[..i])
        invariant log == old(log)
      {
        assert events[..i + 1][..i] == events[..i];
        RestoreOne(events[i]);
      }
      assert events[..|events|] == events;
      return true;
    }

    method RestoreOne(e: Event)
      modifies this, book
      ensures Memory() == RestoreEvent(old(Memory()), e)
      ensures log == old(log)
    {
      hide ApplyFill;
      match e {
        case OrderSubmitted(order) =>
          if order.intent.bookId == book.bookId {
            orders := orders[order.coid := order];
          }
        case FillReceived(f, status, filled, avg) =>
          if f.bookId == book.bookId {
            if f.coid !in orders {
              var _ := book.Apply(f, CNC, "unknown", "");
            } else {
              var order := orders[f.coid];
              var _ := book.Apply(f, order.intent.product, order.intent.strategy, order.intent.reason);
              SetOrder(f.coid, order.(filledQty := filled, avgFillPrice := Some(avg), status := status,
                                      brokerOrderId := OrElse(f.brokerOrderId, order.brokerOrderId)));
            }
          }
        case OrderAcked(coid, bookId, brokerOrderId, status) =>
          if coid in orders && bookId == book.bookId {
            var order := orders[coid];
            if !order.status.IsTerminal() {
              SetOrder(coid, order.(brokerOrderId := Some(brokerOrderId), status := status));
            } else if order.brokerOrderId.None? {
              SetOrder(coid, order.(brokerOrderId := Some(brokerOrderId)));
            }
            unknownChecks := unknownChecks - {coid};
          }
        case OrderUnknown(coid, bookId) =>
          if coid in orders && bookId == book.bookId {
            SetOrder(coid, orders[coid].(status := UNKNOWN));
            unknownChecks := unknownChecks[coid := 0];
          }
        case OrderRejected(coid, bookId, _) => EndOrder(coid, bookId, REJECTED);
        case OrderCancelled(coid, bookId, _) => EndOrder(coid, bookId, CANCELLED);
        case OrderExpired(coid, bookId, _) => EndOrder(coid, bookId, EXPIRED);
        case _ =>
      }
    }

    method EndOrder(coid: string, bookId: string, status: OrderStatus)
      modifies this`orders, this`unknownChecks
      ensures Memory() == RestoreTerminal(old(Memory()), coid, bookId, status)
    {
      if coid in orders && bookId == book.bookId {
        SetOrder(coid, orders[coid].(status := status));
        unknownChecks := unknownChecks - {coid};
      }
    }

    method Advance(coid: string, status: OrderStatus) returns (moved: bool)
      requires coid in orders
      modifies this`orders
      ensures Memory() == Oms.Advance(old(Memory()), coid, status)
      ensures moved == Advances(old(orders[coid].status), status)
      ensures coid in orders
    {
      var current := orders[coid].status;
      if status == current && status != PARTIALLY_FILLED {
        return false;
      }
      if !CanMove(current, status) {
        return false;
      }
      SetOrder(coid, orders[coid].(status := status));
      return true;
    }

    method SetOrder(coid: string, order: Order)
      modifies this`orders
      ensures Memory() == Put(old(Memory()), coid, order)
    {
      orders := orders[coid := order.(version := order.version + 1)];
    }
  }
}

/**
 The read tables of src/store/projections.py, folded from the events, and their agreement with the
 OMS and the book after every completed step.
 */
module Projections {
  import opened Domain
  import opened PositionBook
  import opened Oms
  import opened OmsRestart

  // ---- The tables ---------------------------------------------------------------------------------

  datatype OrderRow = OrderRow(quantity: int, status: OrderStatus, filledQty: nat, avgFillPrice: Option<real>)

  datatype TradeId = TradeId(fillId: string, index: nat)

  datatype PositionId = PositionId(bookId: string, key: Key)

  datatype Tables = Tables(
    orders: map<string, OrderRow>,
    fills: map<string, Fill>,
    positions: map<PositionId, Position>,
    trades: map<TradeId, ClosedPiece>)

  const NO_ROWS := Tables(map[], map[], map[], map[])

  /** UPDATE orders ... WHERE client_order_id = ?: nothing when there is no such row. */
  function UpdateRow(t: Tables, coid: string, row: OrderRow -> OrderRow): Tables {
    if coid in t.orders then t.(orders := t.orders[coid := row(t.orders[coid])]) else t
  }

  /** All four projectors on one stored event. */
  function Project(t: Tables, e: Event): Tables {
    match e
    case OrderSubmitted(o) =>
      t.(orders := t.orders[o.coid := OrderRow(o.quantity, o.status, o.filledQty, o.avgFillPrice)])
    case OrderAcked(coid, _, _, status) => UpdateRow(t, coid, (r: OrderRow) => r.(status := status))
    case OrderRejected(coid, _, _) => UpdateRow(t, coid, (r: OrderRow) => r.(status := REJECTED))
    case OrderUnknown(coid, _) => UpdateRow(t, coid, (r: OrderRow) => r.(status := UNKNOWN))
    case OrderCancelled(coid, _, filled) =>
      UpdateRow(t, coid, (r: OrderRow) => r.(status := CANCELLED, filledQty := filled))
    case OrderExpired(coid, _, filled) =>
      UpdateRow(t, coid, (r: OrderRow) => r.(status := EXPIRED, filledQty := filled))
    case FillReceived(f, status, filled, avg) =>
      var t' := UpdateRow(t, f.coid,
        (r: OrderRow) => r.(status := status, filledQty := filled, avgFillPrice := Some(avg)));
      if f.fillId in t.fills then t' else t'.(fills := t.fills[f.fillId := f])
    case PositionChanged(p, _) => t.(positions := t.positions[PositionId(p.bookId, p.key) := p])
    case TradeClosed(_, p) => t.(trades := t.trades[TradeId(p.fillId, p.index) := p])
    case _ => t
  }

  function ProjectAll(t: Tables, log: seq<Event>): Tables {
    if log == [] then t else Project(ProjectAll(t, log[..|log| - 1]), log[|log| - 1])
  }

  lemma {:induction false} ProjectConcat(t: Tables, a: seq<Event>, b: seq<Event>)
    ensures ProjectAll(t, a + b) == ProjectAll(ProjectAll(t, a), b)
  {
    if b == [] {
      assert a + b == a;
    } else {
      assert (a + b)[..|a + b| - 1] == a + b[..|b| - 1];
      ProjectConcat(t, a, b[..|b| - 1]);
    }
  }

  lemma ProjectOne(t: Tables, e: Event)
    ensures ProjectAll(t, [e]) == Project(t, e)
  {
    assert [e][..0] == [];
  }

  // ---- Agreement ------------------------------------------------------------------------------------

  function RowOf(o: Order): OrderRow { OrderRow(o.quantity, o.status, o.filledQty, o.avgFillPrice) }

  ghost predicate OrdersAgree(orders: map<string, Order>, rows: map<string, OrderRow>) {
    orders.Keys == rows.Keys && forall c | c in orders :: rows[c] == RowOf(orders[c])
  }

  ghost predicate BookAgrees(b: BookState, t: Tables) {
    && t.fills.Keys == b.seen
    && (forall k | k in b.ledgers ::
          && b.ledgers[k].updatedAt.Some?
          && PositionId(b.bookId, k) in t.positions
          && t.positions[PositionId(b.bookId, k)] == PositionOf(b.bookId, k, b.ledgers[k], 0))
    && (forall id | id in t.positions :: id.bookId == b.bookId && id.key in b.ledgers)
  }

  ghost predicate Agree(c: Core, t: Tables) { OrdersAgree(c.orders, t.orders) && BookAgrees(c.book, t) }

  /** The effect's events carry its changes into the tables. */
  ghost predicate Carries(t: Tables, e: Effect) { Agree(e.core, ProjectAll(t, e.events)) }

  // ---- Each step ------------------------------------------------------------------------------------

  /** An order changes status and one event says so. */
  lemma StatusCarries(c: Core, t: Tables, coid: string, o: Order, e: Event)
    requires Agree(c, t) && coid in c.orders
    requires var was := c.orders[coid]; o.quantity == was.quantity && o.avgFillPrice == was.avgFillPrice
                                          && o.filledQty == was.filledQty
    requires match e
      case OrderAcked(id, _, _, status) => id == coid && status == o.status
      case OrderRejected(id, _, _) => id == coid && o.status == REJECTED
      case OrderUnknown(id, _) => id == coid && o.status == UNKNOWN
      case OrderCancelled(id, _, filled) => id == coid && o.status == CANCELLED && filled == o.filledQty
      case OrderExpired(id, _, filled) => id == coid && o.status == EXPIRED && filled == o.filledQty
      case _ => false
    ensures Agree(Put(c, coid, o), ProjectAll(t, [e]))
  {
    ProjectOne(t, e);
    assert t.orders[coid] == RowOf(c.orders[coid]);
    hide BookAgrees;
    assert Project(t, e) == t.(orders := t.orders[coid := RowOf(o)]);
    BookOnly(c.book, t, Project(t, e));
  }

  lemma BookOnly(b: BookState, t: Tables, t': Tables)
    requires BookAgrees(b, t) && t'.fills == t.fills && t'.positions == t.positions
    ensures BookAgrees(b, t')
  {
  }

  /** An order changes in ways the tables do not show. */
  lemma SilentCarries(c: Core, t: Tables, coid: string, o: Order)
    requires Agree(c, t) && coid in c.orders && RowOf(o) == RowOf(c.orders[coid])
    ensures Agree(Put(c, coid, o), t)
  {
  }

  lemma PlacedCarries(c: Core, t: Tables, coid: string, outcome: Placement)
    requires Agree(c, t) && coid in c.orders
    ensures Carries(t, PlaceReturned(c, coid, outcome))
  {
    var o := c.orders[coid];
    var e := PlaceReturned(c, coid, outcome);
    hide Agree, Advances, ProjectAll, Without;
    match outcome
    case OutcomeUnknown =>
      StatusCarries(c, t, coid, o.(status := UNKNOWN), e.events[0]);
      Checks(e.core, Put(c, coid, o.(status := UNKNOWN)), ProjectAll(t, e.events));
    case NotPlaced(_) => StatusCarries(c, t, coid, o.(status := REJECTED), e.events[0]);
    case Acked(id, status) =>
      if o.status == SUBMITTED {
        var o1 := o.(brokerOrderId := Some(id));
        var c1 := Put(c, coid, o1);
        SilentCarries(c, t, coid, o1);
        AdvanceCarries(c1, t, coid, status, e.events[0]);
      } else {
        Nothing(t);
      }
  }

  lemma Nothing(t: Tables)
    ensures ProjectAll(t, []) == t
  {
  }

  /** The tables do not show the UNKNOWN counters. */
  lemma Checks(a: Core, b: Core, t: Tables)
    requires Agree(b, t) && a.orders == b.orders && a.book == b.book
    ensures Agree(a, t)
  {
  }

  /** An acknowledgement that reports whatever status the order now has. */
  lemma AdvanceCarries(c: Core, t: Tables, coid: string, next: OrderStatus, e: Event)
    requires Agree(c, t) && coid in c.orders
    requires e.OrderAcked? && e.coid == coid && e.status == Advance(c, coid, next).orders[coid].status
    ensures Agree(Advance(c, coid, next), ProjectAll(t, [e]))
  {
    hide Agree, CanMove, ProjectAll;
    var o := c.orders[coid];
    if Advances(o.status, next) {
      StatusCarries(c, t, coid, o.(status := next), e);
    } else {
      StatusCarries(c, t, coid, o, e);
      SameRows(Put(c, coid, o), c, ProjectAll(t, [e]));
    }
  }

  lemma SameRows(a: Core, b: Core, t: Tables)
    requires Agree(a, t) && a.orders.Keys == b.orders.Keys && a.book == b.book
    requires forall k | k in a.orders :: RowOf(a.orders[k]) == RowOf(b.orders[k])
    ensures Agree(b, t)
  {
  }

  /** A cancel or expiry snapshot reports the fills already delivered. */
  ghost predicate Reported(c: Core, snap: Snapshot) {
    (snap.coid in c.orders && snap.status in {CANCELLED, EXPIRED} && Advances(c.orders[snap.coid].status, snap.status))
    ==> snap.filledQty == c.orders[snap.coid].filledQty
  }

  /** An update keeps the tables right exactly when such a snapshot does. */
  lemma UpdateCarriesExactly(c: Core, t: Tables, snap: Snapshot)
    requires Agree(c, t)
    ensures Carries(t, OnUpdate(c, snap)) <==> Reported(c, snap)
  {
    hide CanMove, ProjectAll, Agree;
    var e := OnUpdate(c, snap);
    if e.events == [] {
      Nothing(t);
      if snap.coid in c.orders {
        SilentCarries(c, t, snap.coid, c.orders[snap.coid].(brokerOrderId := Some(snap.brokerOrderId)));
      }
    } else if snap.coid !in c.orders {
      AgreeSide(c, t, e.events);
    } else if Reported(c, snap) {
      ReportedCarries(c, t, snap);
    } else {
      UnreportedBreaks(c, t, snap);
    }
  }

  lemma ReportedCarries(c: Core, t: Tables, snap: Snapshot)
    requires Agree(c, t) && snap.coid in c.orders && OnUpdate(c, snap).events != [] && Reported(c, snap)
    ensures Carries(t, OnUpdate(c, snap))
  {
    hide CanMove, ProjectAll, Agree;
    var o, e := c.orders[snap.coid], OnUpdate(c, snap);
    var o1 := if o.brokerOrderId.None? then o.(brokerOrderId := Some(snap.brokerOrderId)) else o;
    var c1 := if o.brokerOrderId.None? then Put(c, snap.coid, o1) else c;
    SilentCarries(c, t, snap.coid, o1);
    StatusCarries(c1, t, snap.coid, c1.orders[snap.coid].(status := snap.status), e.events[0]);
    assert e.events == [e.events[0]];
  }

  lemma UnreportedBreaks(c: Core, t: Tables, snap: Snapshot)
    requires Agree(c, t) && !Reported(c, snap)
    ensures !Carries(t, OnUpdate(c, snap))
  {
    hide CanMove, BookAgrees, ProjectAll;
    var e := OnUpdate(c, snap);
    assert e.events == [e.events[0]];
    ProjectOne(t, e.events[0]);
    assert ProjectAll(t, e.events).orders[snap.coid].filledQty == snap.filledQty;
    assert e.core.orders[snap.coid].filledQty == c.orders[snap.coid].filledQty;
  }

  lemma TagAbsentCarries(c: Core, t: Tables, coid: string, now: int, timeout: int)
    requires Agree(c, t) && coid in c.orders
    ensures Carries(t, TagAbsent(c, coid, now, timeout))
  {
    hide Agree, ProjectAll;
    var o, e := c.orders[coid], TagAbsent(c, coid, now, timeout);
    if e.events == [] {
      Nothing(t);
      Checks(e.core, c, t);
    } else {
      StatusCarries(c, t, coid, o.(status := REJECTED), e.events[0]);
      Checks(e.core, Put(c, coid, o.(status := REJECTED)), ProjectAll(t, e.events));
    }
  }

  // ---- Fills ------------------------------------------------------------------------------------------

  predicate IsSide(e: Event) { e.TradeClosed? || e.ReconciliationResult? || e.Alert? }

  ghost predicate SameButTrades(a: Tables, b: Tables) { a.(trades := map[]) == b.(trades := map[]) }

  lemma {:induction false} ProjectSide(t: Tables, es: seq<Event>)
    requires forall e | e in es :: IsSide(e)
    ensures SameButTrades(ProjectAll(t, es), t)
  {
    if es != [] {
      ProjectSide(t, es[..|es| - 1]);
      assert IsSide(es[|es| - 1]);
    }
  }

  lemma AgreeSide(c: Core, t: Tables, es: seq<Event>)
    requires Agree(c, t) && forall e | e in es :: IsSide(e)
    ensures Agree(c, ProjectAll(t, es))
  {
    ProjectSide(t, es);
  }

  /** Tables after a fill's events. */
  lemma FillEventsProject(t: Tables, alerts: seq<Event>, received: Event, changed: Event, trades: seq<Event>)
    requires received.FillReceived? && changed.PositionChanged?
    requires (forall e | e in alerts :: e.Alert?) && forall e | e in trades :: IsSide(e)
    ensures SameButTrades(ProjectAll(t, alerts + [received, changed] + trades), Project(Project(t, received), changed))
  {
    hide ProjectAll, Project;
    ProjectAlerts(t, alerts);
    ProjectConcat(t, alerts + [received, changed], trades);
    ProjectConcat(t, alerts, [received, changed]);
    assert [received, changed] == [received] + [changed];
    ProjectConcat(t, [received], [changed]);
    ProjectOne(t, received);
    ProjectOne(Project(t, received), changed);
    ProjectSide(Project(Project(t, received), changed), trades);
  }

  lemma {:induction false} ProjectAlerts(t: Tables, es: seq<Event>)
    requires forall e | e in es :: e.Alert?
    ensures ProjectAll(t, es) == t
  {
    if es != [] {
      ProjectAlerts(t, es[..|es| - 1]);
      assert es[|es| - 1].Alert?;
    }
  }

  lemma BookedAgrees(b: BookState, t: Tables, f: Fill, product: Product, strategy: string, reason: string, t': Tables)
    requires BookAgrees(b, t) && f.bookId == b.bookId && f.fillId !in b.seen
    requires
      var p := ApplyFill(b, f, product, strategy, reason).1.position;
      && t'.fills == t.fills[f.fillId := f]
      && t'.positions == t.positions[PositionId(p.bookId, p.key) := p]
    ensures BookAgrees(ApplyFill(b, f, product, strategy, reason).0, t')
  {
    hide ApplyToLedger, PositionOf;
    var key := Key(f.instrument, product);
    BookedPosition(b.bookId, key, b.LedgerAt(key), f, product, strategy, reason);
    var b' := ApplyFill(b, f, product, strategy, reason).0;
    assert b'.ledgers == b.ledgers[key := ApplyToLedger(b.LedgerAt(key), f, product, strategy, reason).0];
  }

  lemma BookedPosition(bookId: string, key: Key, l: Ledger, f: Fill, product: Product, strategy: string, reason: string)
    ensures
      var l' := ApplyToLedger(l, f, product, strategy, reason).0;
      var p := PositionOf(bookId, key, l', f.ts);
      l'.updatedAt.Some? && p == PositionOf(bookId, key, l', 0) && p.bookId == bookId && p.key == key
  {
    hide Close, Total;
  }

  lemma StrayFillCarries(c: Core, t: Tables, f: Fill)
    requires Agree(c, t) && f.bookId == c.book.bookId && f.fillId !in c.book.seen && f.coid !in c.orders
    ensures Carries(t, OnFill(c, f))
  {
    hide ApplyToLedger, PositionOf, ProjectAll;
    var e := OnFill(c, f);
    var t2 := Project(Project(t, e.events[1]), e.events[2]);
    assert e.events == [e.events[0]] + [e.events[1], e.events[2]] + [];
    FillEventsProject(t, [e.events[0]], e.events[1], e.events[2], []);
    BookedAgrees(c.book, t, f, CNC, "unknown", "", t2);
    BookOnly(e.core.book, t2, ProjectAll(t, e.events));
  }

  lemma OrderFillCarries(c: Core, t: Tables, f: Fill)
    requires Agree(c, t) && f.bookId == c.book.bookId && f.fillId !in c.book.seen && f.coid in c.orders
    ensures Carries(t, OnFill(c, f))
  {
    hide ApplyToLedger, PositionOf, AvgAfter, ProjectAll, Recordable;
    var o, e := c.orders[f.coid], OnFill(c, f);
    var alerts := if o.filledQty + f.quantity > o.quantity then [Alert("oms_overfill")] else [];
    var received := FillReceived(f, StatusAfter(o, f), FilledAfter(o, f), AvgAfter(o, f));
    var outcome := BookFill(c.book, f, o.intent).1;
    var changed := PositionChanged(outcome.position, f.fillId);
    var trades := TradeEvents(c.book.bookId, Recordable(outcome.closed));
    assert e.events == alerts + [received, changed] + trades;
    var t2 := Project(Project(t, received), changed);
    FillEventsProject(t, alerts, received, changed, trades);
    BookedAgrees(c.book, t, f, o.intent.product, o.intent.strategy, o.intent.reason, t2);
    BookOnly(e.core.book, t2, ProjectAll(t, e.events));
    assert t.orders[f.coid] == RowOf(o);
    hide ApplyFill, BookAgrees;
    assert t2.orders == t.orders[f.coid := RowOf(FilledOrder(o, f))];
    assert e.core.orders == PutFilled(c, o, f).orders;
    FilledRows(c, t, f);
  }

  lemma FilledRows(c: Core, t: Tables, f: Fill)
    requires OrdersAgree(c.orders, t.orders) && f.coid in c.orders
    ensures OrdersAgree(PutFilled(c, c.orders[f.coid], f).orders,
                        t.orders[f.coid := RowOf(FilledOrder(c.orders[f.coid], f))])
  {
    hide AvgAfter;
  }

  lemma FillCarries(c: Core, t: Tables, f: Fill)
    requires Agree(c, t) && f.bookId == c.book.bookId
    ensures Carries(t, OnFill(c, f))
  {
    hide Agree;
    if f.fillId in c.book.seen {
      Nothing(t);
    } else if f.coid in c.orders {
      OrderFillCarries(c, t, f);
    } else {
      StrayFillCarries(c, t, f);
    }
  }

  lemma {:induction false} AdoptCarries(c: Core, t: Tables, fills: seq<Fill>)
    requires Agree(c, t) && forall f | f in fills :: f.bookId == c.book.bookId
    ensures Carries(t, AdoptFills(c, fills))
    decreases |fills|
  {
    hide Agree, OnFill, ProjectAll;
    if fills == [] {
      Nothing(t);
    } else {
      var first := OnFill(c, fills[0]);
      FillCarries(c, t, fills[0]);
      FillKeepsBookId(c, fills[0]);
      if !first.raised {
        AdoptCarries(first.core, ProjectAll(t, first.events), fills[1..]);
        ProjectConcat(t, first.events, AdoptFills(first.core, fills[1..]).events);
      }
    }
  }

  lemma TagTradesCarry(c: Core, t: Tables, snap: Snapshot, trades: seq<Fill>)
    requires Agree(c, t) && snap.coid in c.orders && forall f | f in trades :: f.bookId == c.book.bookId
    ensures Carries(t, TagResolved(c, snap, trades))
  {
    hide Agree, AdoptFills, ProjectAll, Advances, CanMove;
    AdoptCarries(c, t, trades);
    var adopted := AdoptFills(c, trades);
    if !adopted.raised {
      var c1, t1 := adopted.core, ProjectAll(t, adopted.events);
      var ack := AckFound(c1, snap, c.orders[snap.coid].intent.bookId);
      ProjectConcat(t, adopted.events, ack.events);
      var o := c1.orders[snap.coid];
      if o.status.IsTerminal() || snap.status in {FILLED, PARTIALLY_FILLED} {
        StatusCarries(c1, t1, snap.coid, o, ack.events[0]);
        SameRows(Put(c1, snap.coid, o), c1, ProjectAll(t1, ack.events));
        Checks(ack.core, c1, ProjectAll(t1, ack.events));
      } else {
        AdvanceCarries(c1, t1, snap.coid, snap.status, ack.events[0]);
        Checks(ack.core, Advance(c1, snap.coid, snap.status), ProjectAll(t1, ack.events));
      }
    }
  }

  lemma ReconcileCarries(c: Core, t: Tables, trades: seq<Fill>, inSync: bool)
    requires Agree(c, t) && forall f | f in trades :: f.bookId == c.book.bookId
    ensures Carries(t, Reconcile(c, trades, inSync))
  {
    hide Agree, AdoptFills, ProjectAll;
    AdoptCarries(c, t, trades);
    var adopted := AdoptFills(c, trades);
    if !adopted.raised {
      var notes := [ReconciliationResult(c.book.bookId, inSync)] + if inSync then [] else [Alert("SYS_RECON_DRIFT")];
      ProjectConcat(t, adopted.events, notes);
      AgreeSide(adopted.core, ProjectAll(t, adopted.events), notes);
    }
  }

  // ---- Every run ----------------------------------------------------------------------------------------

  lemma SubmitCarries(s: State, t: Tables, step: Step)
    requires Agree(s.core, t) && step.Submit?
    ensures Carries(t, StepEffect(s, step))
  {
    hide Reducible, BookAgrees;
    var d := Decide(s.core, step.intent, step.coid, step.quantity, step.gate, step.now);
    if d.Route? {
      var e := OrderSubmitted(d.order);
      ProjectOne(t, e);
      BookOnly(s.core.book, t, Project(t, e));
    } else {
      Nothing(t);
    }
  }

  /** The steps that book nothing. */
  lemma OrderStepCarries(s: State, t: Tables, step: Step)
    requires Agree(s.core, t) && FillsOf(step) == [] && !step.Restart? && !step.TagTrades? && !step.Reconciliation?
    requires step.Update? ==> Reported(s.core, step.snap)
    ensures Carries(t, StepEffect(s, step))
  {
    var c := s.core;
    hide Agree, OnUpdate, PlaceReturned, TagAbsent, ProjectAll, Decide, Reported;
    Nothing(t);
    match step
    case Submit(_, _, _, _, _) => SubmitCarries(s, t, step);
    case Placed(coid, outcome) => if coid in c.orders { PlacedCarries(c, t, coid, outcome); }
    case Update(snap) => UpdateCarriesExactly(c, t, snap);
    case TagLookup(coid, id) =>
      if coid in c.orders { SilentCarries(c, t, coid, c.orders[coid].(brokerOrderId := Some(id))); }
    case TagMissing(coid, now, timeout) => if coid in c.orders { TagAbsentCarries(c, t, coid, now, timeout); }
  }

  lemma StepCarries(s: State, t: Tables, step: Step)
    requires Agree(s.core, t) && Synced(s) && OwnFills(s.core.book.bookId, [step])
    requires step.Update? ==> Reported(s.core, step.snap)
    ensures Carries(t, StepEffect(s, step))
  {
    var c := s.core;
    assert forall f | f in FillsOf(step) :: f.bookId == c.book.bookId by { assert step in [step]; }
    hide OwnFills, Agree, OnFill, TagResolved, Reconcile, ProjectAll, Replay, Reported;
    Nothing(t);
    match step
    case FillArrived(f) => hide Synced; FillCarries(c, t, f);
    case TagTrades(snap, trades) => hide Synced; if snap.coid in c.orders { TagTradesCarry(c, t, snap, trades); }
    case Reconciliation(trades, inSync) => hide Synced; ReconcileCarries(c, t, trades, inSync);
    case Restart => RestartCarries(c, Restore(c.book.bookId, c.book.startingCash, s.log), t);
    case _ => hide Synced, StepEffect; OrderStepCarries(s, t, step);
  }

  lemma RestartCarries(a: Core, b: Core, t: Tables)
    requires Agree(a, t) && Same(a, b)
    ensures Agree(b, t)
  {
    forall k | k in a.orders ensures RowOf(a.orders[k]) == RowOf(b.orders[k]) {
      assert Plain(a.orders[k]) == Plain(b.orders[k]);
    }
    SameRows(a, b, t);
  }

  /** Every cancel or expiry in the run reports the fills delivered by then. */
  ghost predicate ReportedRun(s: State, steps: seq<Step>) {
    steps != [] ==>
      var last := steps[|steps| - 1];
      && ReportedRun(s, steps[..|steps| - 1])
      && (last.Update? ==> Reported(Run(s, steps[..|steps| - 1]).core, last.snap))
  }

  /**
   After every completed step of every such run, restarts included, each orders row has the order's
   size, status, filled quantity and average price, each positions row is the book's position, and
   the fills table holds exactly the fills the book has taken.
   */
  lemma {:induction false} TablesAgree(bookId: string, cash: real, steps: seq<Step>)
    requires OwnFills(bookId, steps) && ReportedRun(NewState(bookId, cash), steps)
    ensures var s := Run(NewState(bookId, cash), steps); Agree(s.core, ProjectAll(NO_ROWS, s.log))
  {
    if steps != [] {
      hide StepEffect, Agree, Synced, ProjectAll;
      var before, step := steps[..|steps| - 1], steps[|steps| - 1];
      assert forall st | st in before :: st in steps;
      TablesAgree(bookId, cash, before);
      RestartRefinement(bookId, cash, before);
      var s := Run(NewState(bookId, cash), before);
      assert step in steps;
      StepCarries(s, ProjectAll(NO_ROWS, s.log), step);
      ProjectConcat(NO_ROWS, s.log, StepEffect(s, step).events);
    }
  }
}

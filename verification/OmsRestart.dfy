/**
 Restart refinement: in every run, replaying the emitted events on a fresh OMS gives back the same
 book and the same orders, up to the fields the log does not carry.
 */
module OmsRestart {
  import opened Domain
  import opened PositionBook
  import opened Oms

  // ---- The relation -------------------------------------------------------------------------------

  /** An order without the two fields that a replay may leave different. */
  function Plain(o: Order): Order { o.(version := 0, brokerOrderId := None) }

  ghost predicate SameOrders(a: map<string, Order>, b: map<string, Order>) {
    && a.Keys == b.Keys
    && (forall c | c in a :: Plain(a[c]) == Plain(b[c]))
  }

  ghost predicate Same(a: Core, b: Core) { a.book == b.book && SameOrders(a.orders, b.orders) }

  ghost predicate Own(c: Core) { forall k | k in c.orders :: c.orders[k].intent.bookId == c.book.bookId }

  ghost predicate Synced(s: State) {
    Own(s.core) && Same(s.core, Restore(s.core.book.bookId, s.core.book.startingCash, s.log))
  }

  /** The effect, seen from a replayed core: its events replay to what it did. */
  ghost predicate Replays(r: Core, e: Effect) { Own(e.core) && Same(e.core, Replay(r, e.events)) }

  lemma {:induction false} ReplayConcat(c: Core, a: seq<Event>, b: seq<Event>)
    ensures Replay(c, a + b) == Replay(Replay(c, a), b)
  {
    if b == [] {
      assert a + b == a;
    } else {
      assert (a + b)[..|a + b| - 1] == a + b[..|b| - 1];
      ReplayConcat(c, a, b[..|b| - 1]);
    }
  }

  lemma ReplayOne(c: Core, e: Event)
    ensures Replay(c, [e]) == RestoreEvent(c, e)
  {
    assert [e][..0] == [];
  }

  predicate IsNote(e: Event) { e.PositionChanged? || e.TradeClosed? || e.ReconciliationResult? || e.Alert? }

  /** Events that restore passes over. */
  lemma {:induction false} ReplayNotes(c: Core, notes: seq<Event>)
    requires forall e | e in notes :: IsNote(e)
    ensures Replay(c, notes) == c
  {
    if notes != [] {
      ReplayNotes(c, notes[..|notes| - 1]);
      assert IsNote(notes[|notes| - 1]);
    }
  }

  lemma PutSame(a: Core, b: Core, coid: string, oa: Order, ob: Order)
    requires Same(a, b) && Own(a) && Plain(oa) == Plain(ob) && oa.intent.bookId == a.book.bookId
    ensures Same(Put(a, coid, oa), Put(b, coid, ob)) && Own(Put(a, coid, oa))
  {
  }

  /** Changing the broker id alone leaves nothing to replay. */
  lemma PutSilent(a: Core, b: Core, coid: string, o: Order)
    requires Same(a, b) && Own(a) && coid in a.orders && Plain(o) == Plain(a.orders[coid])
    ensures Same(Put(a, coid, o), b) && Own(Put(a, coid, o))
  {
  }

  // ---- Each step ----------------------------------------------------------------------------------

  lemma PlacedReplays(c: Core, r: Core, coid: string, outcome: Placement)
    requires Own(c) && Same(c, r) && coid in c.orders
    ensures Replays(r, PlaceReturned(c, coid, outcome))
  {
    hide Replays;
    match outcome
    case Acked(id, status) => AckReturnedReplays(c, r, coid, id, status);
    case _ => FailureReplays(c, r, coid, outcome);
  }

  lemma FailureReplays(c: Core, r: Core, coid: string, outcome: Placement)
    requires Own(c) && Same(c, r) && coid in c.orders && !outcome.Acked?
    ensures Replays(r, PlaceReturned(c, coid, outcome))
  {
    hide Without, Replay;
    var e := PlaceReturned(c, coid, outcome);
    var o, p, status := c.orders[coid], r.orders[coid], e.core.orders[coid].status;
    assert Plain(o) == Plain(p);
    ReplayOne(r, e.events[0]);
    assert e.events == [e.events[0]];
    PutSame(c, r, coid, o.(status := status), p.(status := status));
  }

  lemma AckReturnedReplays(c: Core, r: Core, coid: string, id: string, status: OrderStatus)
    requires Own(c) && Same(c, r) && coid in c.orders
    ensures Replays(r, PlaceReturned(c, coid, Acked(id, status)))
  {
    hide Replays, Advance, Replay;
    var o := c.orders[coid];
    assert Plain(o) == Plain(r.orders[coid]);
    if o.status == SUBMITTED {
      var c1 := Put(c, coid, o.(brokerOrderId := Some(id)));
      PutSilent(c, r, coid, o.(brokerOrderId := Some(id)));
      AckedReplays(c1, r, coid, id, status);
    } else {
      NothingReplays(c, r);
    }
  }

  lemma NothingReplays(c: Core, r: Core)
    requires Own(c) && Same(c, r)
    ensures Replays(r, Effect(c, [], false))
  {
    Silence(r);
  }

  lemma AckedReplays(c: Core, r: Core, coid: string, id: string, next: OrderStatus)
    requires Own(c) && Same(c, r) && coid in c.orders && coid in r.orders && !r.orders[coid].status.IsTerminal()
    ensures
      var c' := Advance(c, coid, next);
      Replays(r, Effect(c', [OrderAcked(coid, c.book.bookId, id, c'.orders[coid].status)], false))
  {
    hide Advance, Own, SameOrders, RestoreAck, Replay;
    var status := Advance(c, coid, next).orders[coid].status;
    AdvanceSame(c, r, coid, next, id);
    AckLive(r, coid, id, status);
    ReplayOne(r, OrderAcked(coid, c.book.bookId, id, status));
  }

  /** Replaying an acknowledgement of a live order. */
  lemma AckLive(r: Core, coid: string, id: string, status: OrderStatus)
    requires coid in r.orders && !r.orders[coid].status.IsTerminal()
    ensures
      var r', o := RestoreAck(r, coid, r.book.bookId, id, status), r.orders[coid].(brokerOrderId := Some(id), status := status);
      r'.orders == Put(r, coid, o).orders && r'.book == r.book
  {
    hide Without;
  }

  lemma AdvanceSame(c: Core, r: Core, coid: string, next: OrderStatus, id: string)
    requires Own(c) && Same(c, r) && coid in c.orders
    ensures
      var c' := Advance(c, coid, next);
      var o := r.orders[coid].(brokerOrderId := Some(id), status := c'.orders[coid].status);
      Own(c') && Same(c', Put(r, coid, o))
  {
    hide Advances;
    var o, p := c.orders[coid], r.orders[coid];
    var status := Advance(c, coid, next).orders[coid].status;
    assert Plain(o) == Plain(p);
    PutSame(c, r, coid, o.(status := status), p.(brokerOrderId := Some(id), status := status));
  }

  lemma Silence(r: Core)
    ensures Replay(r, []) == r
  {
  }

  lemma UpdateReplays(c: Core, r: Core, snap: Snapshot)
    requires Own(c) && Same(c, r)
    ensures Replays(r, OnUpdate(c, snap))
  {
    var e := OnUpdate(c, snap);
    if snap.coid !in c.orders {
      ReplayNotes(r, e.events);
    } else {
      var o := c.orders[snap.coid];
      var c1 := if o.brokerOrderId.None? then Put(c, snap.coid, o.(brokerOrderId := Some(snap.brokerOrderId))) else c;
      if o.brokerOrderId.None? {
        PutSilent(c, r, snap.coid, o.(brokerOrderId := Some(snap.brokerOrderId)));
      }
      if e.events != [] {
        AdvanceReplays(c1, r, snap, o.intent.bookId);
      }
    }
  }

  /** No move leaves a terminal status. */
  lemma MovesAreLive(current: OrderStatus, next: OrderStatus)
    ensures CanMove(current, next) ==> !current.IsTerminal()
  {
  }

  lemma AdvanceReplays(c: Core, r: Core, snap: Snapshot, bookId: string)
    requires Own(c) && Same(c, r) && snap.coid in c.orders && bookId == c.book.bookId
    requires Advances(c.orders[snap.coid].status, snap.status)
    ensures Replays(r, Effect(Advance(c, snap.coid, snap.status), [UpdateEvent(snap, bookId)], false))
  {
    MovesAreLive(c.orders[snap.coid].status, snap.status);
    assert Plain(c.orders[snap.coid]) == Plain(r.orders[snap.coid]);
    hide CanMove, Replays;
    if snap.status in {CANCELLED, EXPIRED, REJECTED} {
      EndReplays(c, r, snap, bookId);
    } else {
      AckedReplays(c, r, snap.coid, snap.brokerOrderId, snap.status);
    }
  }

  lemma EndReplays(c: Core, r: Core, snap: Snapshot, bookId: string)
    requires Own(c) && Same(c, r) && snap.coid in c.orders && bookId == c.book.bookId
    requires Advances(c.orders[snap.coid].status, snap.status) && snap.status in {CANCELLED, EXPIRED, REJECTED}
    ensures Replays(r, Effect(Advance(c, snap.coid, snap.status), [UpdateEvent(snap, bookId)], false))
  {
    EndSame(c, r, snap.coid, snap.status);
    EndEventRestores(r, snap, bookId);
    hide Advance, Replay, Own, Same, RestoreTerminal, RestoreEvent, UpdateEvent, Advances, CanMove;
    ReplayOne(r, UpdateEvent(snap, bookId));
    assert Same(Advance(c, snap.coid, snap.status), Replay(r, [UpdateEvent(snap, bookId)]));
  }

  lemma EndEventRestores(r: Core, snap: Snapshot, bookId: string)
    requires snap.status in {CANCELLED, EXPIRED, REJECTED}
    ensures RestoreEvent(r, UpdateEvent(snap, bookId)) == RestoreTerminal(r, snap.coid, bookId, snap.status)
  {
    hide RestoreTerminal, RestoreFill, RestoreAck;
  }

  lemma EndSame(c: Core, r: Core, coid: string, status: OrderStatus)
    requires Own(c) && Same(c, r) && coid in c.orders && Advances(c.orders[coid].status, status)
    ensures Own(Advance(c, coid, status)) && Same(Advance(c, coid, status), RestoreTerminal(r, coid, c.book.bookId, status))
  {
    hide CanMove, Without;
    var o, p := c.orders[coid], r.orders[coid];
    assert Plain(o) == Plain(p);
    PutSame(c, r, coid, o.(status := status), p.(status := status));
  }

  lemma TradeEventsAreNotes(bookId: string, closed: seq<ClosedPiece>)
    ensures forall e | e in TradeEvents(bookId, closed) :: IsNote(e)
  {
  }

  /** A fill's events: alerts, the fill itself, then notes. */
  lemma FillEventsReplay(r: Core, alerts: seq<Event>, received: Event, notes: seq<Event>)
    requires forall e | e in alerts + notes :: IsNote(e)
    ensures Replay(r, alerts + [received] + notes) == RestoreEvent(r, received)
  {
    ReplayConcat(r, alerts + [received], notes);
    ReplayConcat(r, alerts, [received]);
    ReplayNotes(r, alerts);
    ReplayOne(r, received);
    ReplayNotes(Replay(r, alerts + [received]), notes);
  }

  lemma FillReplays(c: Core, r: Core, f: Fill)
    requires Own(c) && Same(c, r) && f.bookId == c.book.bookId
    ensures Replays(r, OnFill(c, f))
  {
    if f.fillId in c.book.seen {
    } else if f.coid !in c.orders {
      StrayFillReplays(c, r, f);
    } else {
      OrderFillReplays(c, r, f);
    }
  }

  lemma StrayFillReplays(c: Core, r: Core, f: Fill)
    requires Own(c) && Same(c, r) && f.bookId == c.book.bookId
    requires f.fillId !in c.book.seen && f.coid !in c.orders
    ensures Replays(r, OnFill(c, f))
  {
    hide ApplyToLedger, PositionOf;
    var e := OnFill(c, f);
    var notes := [e.events[2]];
    assert e.events == [e.events[0]] + [e.events[1]] + notes;
    FillEventsReplay(r, [e.events[0]], e.events[1], notes);
  }

  lemma OrderFillReplays(c: Core, r: Core, f: Fill)
    requires Own(c) && Same(c, r) && f.bookId == c.book.bookId
    requires f.fillId !in c.book.seen && f.coid in c.orders
    ensures Replays(r, OnFill(c, f))
  {
    hide ApplyToLedger, PositionOf, AvgAfter, FilledAfter, StatusAfter, Recordable, TradeEvents, Replay, RestoreEvent, PutFilled;
    var o := c.orders[f.coid];
    var e := OnFill(c, f);
    var alerts := if o.filledQty + f.quantity > o.quantity then [Alert("oms_overfill")] else [];
    var received := FillReceived(f, StatusAfter(o, f), FilledAfter(o, f), AvgAfter(o, f));
    var (book, outcome) := BookFill(c.book, f, o.intent);
    var trades := TradeEvents(c.book.bookId, Recordable(outcome.closed));
    var notes := [PositionChanged(outcome.position, f.fillId)] + trades;
    TradeEventsAreNotes(c.book.bookId, Recordable(outcome.closed));
    assert e.events == alerts + [received] + notes;
    FillEventsReplay(r, alerts, received, notes);
    FillOrderReplays(c, r, f);
    assert e.core == PutFilled(c, o, f).(book := book);
  }

  lemma BookFillKeepsId(b: BookState, f: Fill, intent: Intent)
    ensures BookFill(b, f, intent).0.bookId == b.bookId
  {
    hide ApplyToLedger, PositionOf;
  }

  lemma FillOrderReplays(c: Core, r: Core, f: Fill)
    requires Own(c) && Same(c, r) && f.bookId == c.book.bookId && f.coid in c.orders
    ensures
      var o := c.orders[f.coid];
      var e := FillReceived(f, StatusAfter(o, f), FilledAfter(o, f), AvgAfter(o, f));
      var c' := PutFilled(c, o, f).(book := BookFill(c.book, f, o.intent).0);
      Same(c', RestoreEvent(r, e)) && Own(c')
  {
    hide ApplyFill, AvgAfter, FilledAfter, StatusAfter, OrElse;
    var o, p := c.orders[f.coid], r.orders[f.coid];
    assert Plain(o) == Plain(p);
    BookFillKeepsId(c.book, f, o.intent);
    var bump := if StatusAfter(o, f) == o.status && o.status != PARTIALLY_FILLED then 0 else 1;
    PutSame(c, r, f.coid, FilledOrder(o, f).(version := o.version + bump),
            p.(filledQty := FilledAfter(o, f), avgFillPrice := Some(AvgAfter(o, f)), status := StatusAfter(o, f),
               brokerOrderId := OrElse(f.brokerOrderId, p.brokerOrderId)));
  }

  lemma {:induction false} AdoptReplays(c: Core, r: Core, fills: seq<Fill>)
    requires Own(c) && Same(c, r) && forall f | f in fills :: f.bookId == c.book.bookId
    ensures Replays(r, AdoptFills(c, fills))
    ensures AdoptFills(c, fills).core.book.bookId == c.book.bookId
    decreases |fills|
  {
    if fills != [] {
      hide OnFill;
      var first := OnFill(c, fills[0]);
      FillReplays(c, r, fills[0]);
      FillKeepsBookId(c, fills[0]);
      if !first.raised {
        AdoptReplays(first.core, Replay(r, first.events), fills[1..]);
        ReplayConcat(r, first.events, AdoptFills(first.core, fills[1..]).events);
      }
    }
  }

  lemma FillKeepsBookId(c: Core, f: Fill)
    ensures OnFill(c, f).core.book.bookId == c.book.bookId
    ensures OnFill(c, f).core.book.startingCash == c.book.startingCash
  {
    hide ApplyToLedger, PositionOf, AvgAfter;
  }

  lemma {:induction false} AdoptKeepsBookId(c: Core, fills: seq<Fill>)
    ensures AdoptFills(c, fills).core.book.bookId == c.book.bookId
    ensures AdoptFills(c, fills).core.book.startingCash == c.book.startingCash
    decreases |fills|
  {
    if fills != [] {
      hide OnFill;
      FillKeepsBookId(c, fills[0]);
      AdoptKeepsBookId(OnFill(c, fills[0]).core, fills[1..]);
    }
  }

  lemma TagTradesReplay(c: Core, r: Core, snap: Snapshot, trades: seq<Fill>)
    requires Own(c) && Same(c, r) && snap.coid in c.orders
    requires forall f | f in trades :: f.bookId == c.book.bookId
    ensures Replays(r, TagResolved(c, snap, trades))
  {
    hide AdoptFills, OnFill, Replay, AckFound;
    var adopted := AdoptFills(c, trades);
    AdoptReplays(c, r, trades);
    AdoptKeepsBookId(c, trades);
    if !adopted.raised {
      var ack := AckFound(adopted.core, snap, c.book.bookId);
      AckReplays(adopted.core, Replay(r, adopted.events), snap);
      ReplayConcat(r, adopted.events, ack.events);
    }
  }

  lemma AckReplays(c: Core, r: Core, snap: Snapshot)
    requires Own(c) && Same(c, r) && snap.coid in c.orders
    ensures Replays(r, AckFound(c, snap, c.book.bookId))
  {
    hide Advances, Without, Replay;
    var e := AckFound(c, snap, c.book.bookId);
    ReplayOne(r, e.events[0]);
    assert Plain(c.orders[snap.coid]) == Plain(r.orders[snap.coid]);
    if c.orders[snap.coid].status.IsTerminal() {
      AckAfterEnd(c, r, snap);
    } else {
      AckWhileLive(c, r, snap);
    }
  }

  lemma AckAfterEnd(c: Core, r: Core, snap: Snapshot)
    requires Own(c) && Same(c, r) && snap.coid in c.orders && c.orders[snap.coid].status.IsTerminal()
    ensures
      var e := AckFound(c, snap, c.book.bookId);
      Own(e.core) && Same(e.core, RestoreEvent(r, e.events[0]))
  {
    hide Advances, Without, RestoreFill, RestoreTerminal;
    var p := r.orders[snap.coid];
    assert Plain(c.orders[snap.coid]) == Plain(p);
    if p.brokerOrderId.None? {
      assert Plain(p.(brokerOrderId := Some(snap.brokerOrderId))) == Plain(p);
    }
  }

  lemma AckWhileLive(c: Core, r: Core, snap: Snapshot)
    requires Own(c) && Same(c, r) && snap.coid in c.orders && !c.orders[snap.coid].status.IsTerminal()
    ensures
      var e := AckFound(c, snap, c.book.bookId);
      Own(e.core) && Same(e.core, RestoreEvent(r, e.events[0]))
  {
    var coid, id := snap.coid, snap.brokerOrderId;
    assert Plain(c.orders[coid]) == Plain(r.orders[coid]);
    hide Advance, RestoreAck, RestoreFill, RestoreTerminal, Without;
    var status := AckFound(c, snap, c.book.bookId).events[0].status;
    AckLive(r, coid, id, status);
    AdvanceSame(c, r, coid, snap.status, id);
    StaySame(c, r, coid, id);
  }

  /** An acknowledgement that changes no status. */
  lemma StaySame(c: Core, r: Core, coid: string, id: string)
    requires Own(c) && Same(c, r) && coid in c.orders
    ensures Same(c, Put(r, coid, r.orders[coid].(brokerOrderId := Some(id), status := c.orders[coid].status)))
  {
    assert Plain(c.orders[coid]) == Plain(r.orders[coid]);
  }

  lemma ReconcileReplays(c: Core, r: Core, trades: seq<Fill>, inSync: bool)
    requires Own(c) && Same(c, r) && forall f | f in trades :: f.bookId == c.book.bookId
    ensures Replays(r, Reconcile(c, trades, inSync))
  {
    hide AdoptFills, OnFill;
    var adopted := AdoptFills(c, trades);
    AdoptReplays(c, r, trades);
    if !adopted.raised {
      var notes := [ReconciliationResult(c.book.bookId, inSync)] + if inSync then [] else [Alert("SYS_RECON_DRIFT")];
      ReplayConcat(r, adopted.events, notes);
      ReplayNotes(Replay(r, adopted.events), notes);
    }
  }

  lemma SubmitReplays(s: State, r: Core, step: Step)
    requires Own(s.core) && Same(s.core, r) && step.Submit?
    ensures Replays(r, StepEffect(s, step))
  {
    hide Reducible;
    var d := Decide(s.core, step.intent, step.coid, step.quantity, step.gate, step.now);
    if d.Route? {
      ReplayOne(r, OrderSubmitted(d.order));
    }
  }

  lemma TagAbsentReplays(c: Core, r: Core, coid: string, now: int, timeout: int)
    requires Own(c) && Same(c, r) && coid in c.orders
    ensures Replays(r, TagAbsent(c, coid, now, timeout))
  {
    var e := TagAbsent(c, coid, now, timeout);
    if e.events != [] {
      ReplayOne(r, e.events[0]);
    }
  }

  // ---- Every run ------------------------------------------------------------------------------------

  function FillsOf(step: Step): seq<Fill> {
    match step
    case FillArrived(f) => [f]
    case TagTrades(_, trades) => trades
    case Reconciliation(trades, _) => trades
    case _ => []
  }

  /** Every fill the broker reports carries this book's id. */
  ghost predicate OwnFills(bookId: string, steps: seq<Step>) {
    forall step, f | step in steps && f in FillsOf(step) :: f.bookId == bookId
  }

  lemma StepReplays(s: State, step: Step)
    requires Synced(s) && OwnFills(s.core.book.bookId, [step]) && !step.Restart?
    ensures Replays(Restore(s.core.book.bookId, s.core.book.startingCash, s.log), StepEffect(s, step))
  {
    var c, r := s.core, Restore(s.core.book.bookId, s.core.book.startingCash, s.log);
    assert forall f | f in FillsOf(step) :: f.bookId == c.book.bookId by { assert step in [step]; }
    hide Restore, OwnFills;
    match step
    case Submit(intent, coid, quantity, gate, now) => SubmitReplays(s, r, step);
    case Placed(coid, outcome) => hide PlaceReturned; if coid in c.orders { PlacedReplays(c, r, coid, outcome); }
    case Update(snap) => hide OnUpdate; UpdateReplays(c, r, snap);
    case FillArrived(f) => hide OnFill; FillReplays(c, r, f);
    case TagLookup(coid, id) =>
    case TagTrades(snap, trades) => hide TagResolved; if snap.coid in c.orders { TagTradesReplay(c, r, snap, trades); }
    case TagMissing(coid, now, timeout) =>
      hide TagAbsent;
      if coid in c.orders { TagAbsentReplays(c, r, coid, now, timeout); }
    case Reconciliation(trades, inSync) => hide Reconcile; ReconcileReplays(c, r, trades, inSync);
  }

  lemma StepKeepsBookId(s: State, step: Step)
    ensures Next(s, step).core.book.bookId == s.core.book.bookId
    ensures Next(s, step).core.book.startingCash == s.core.book.startingCash
  {
    var c := s.core;
    hide AdoptFills, OnFill, Reducible;
    match step
    case FillArrived(f) => FillKeepsBookId(c, f);
    case TagTrades(snap, trades) => AdoptKeepsBookId(c, trades);
    case Reconciliation(trades, inSync) => AdoptKeepsBookId(c, trades);
    case Restart => ReplayKeepsBookId(NewCore(c.book.bookId, c.book.startingCash), s.log);
    case _ =>
  }

  lemma {:induction false} ReplayKeepsBookId(c: Core, log: seq<Event>)
    ensures Replay(c, log).book.bookId == c.book.bookId
    ensures Replay(c, log).book.startingCash == c.book.startingCash
  {
    if log != [] {
      hide ApplyToLedger, PositionOf;
      ReplayKeepsBookId(c, log[..|log| - 1]);
    }
  }

  lemma StepSynced(s: State, step: Step)
    requires Synced(s) && OwnFills(s.core.book.bookId, [step])
    ensures Synced(Next(s, step))
  {
    hide StepEffect;
    var b := s.core.book;
    StepKeepsBookId(s, step);
    if step.Restart? {
      RestartEffect(s);
      assert s.log + [] == s.log;
    } else {
      StepReplays(s, step);
      ReplayConcat(NewCore(b.bookId, b.startingCash), s.log, StepEffect(s, step).events);
    }
  }

  lemma RestartEffect(s: State)
    ensures StepEffect(s, Restart)
         == Effect(Restore(s.core.book.bookId, s.core.book.startingCash, s.log), [], false)
  {
  }

  /**
   Restart refinement. After any interleaving of submissions, broker answers, updates, fills,
   UNKNOWN resolutions, reconciliations and earlier restarts, restoring the log on a fresh OMS
   yields the same book and, up to version and broker id, the same orders.
   */
  lemma {:induction false} RestartRefinement(bookId: string, cash: real, steps: seq<Step>)
    requires OwnFills(bookId, steps)
    ensures
      var s := Run(NewState(bookId, cash), steps);
      Synced(s) && s.core.book.bookId == bookId && s.core.book.startingCash == cash
  {
    hide Next;
    if steps != [] {
      var before, step := steps[..|steps| - 1], steps[|steps| - 1];
      assert forall st | st in before :: st in steps;
      RestartRefinement(bookId, cash, before);
      assert step in steps;
      StepSynced(Run(NewState(bookId, cash), before), step);
      StepKeepsBookId(Run(NewState(bookId, cash), before), step);
    }
  }

  // ---- Exactly which fills break it -------------------------------------------------------------------

  /** The mean does not move only when the fill trades at it. */
  lemma AvgUnmoved(o: Order, f: Fill)
    requires o.avgFillPrice.Some?
    ensures AvgAfter(o, f) == o.avgFillPrice.value <==> f.price == o.avgFillPrice.value
  {
    var a, n, q := o.avgFillPrice.value, o.filledQty as real, f.quantity as real;
    assert (o.filledQty + f.quantity) as real == n + q;
    assert a == a * (n + q) / (n + q);
    assert AvgAfter(o, f) * (n + q) == a * n + f.price * q;
    assert a * n + a * q == a * (n + q);
    if AvgAfter(o, f) == a {
      calc {
        a * n + f.price * q;
        AvgAfter(o, f) * (n + q);
        a * (n + q);
        a * n + a * q;
      }
      assert a == a * q / q == f.price;
    }
  }

  /** The fill leaves a known order exactly as it is. */
  predicate LeavesOrder(o: Order, f: Fill) {
    o.status == FILLED && o.filledQty == o.quantity && o.avgFillPrice == Some(f.price)
  }

  lemma LeavesOrderExactly(o: Order, f: Fill)
    ensures Plain(FilledOrder(o, f)) == Plain(o) <==> LeavesOrder(o, f)
  {
    hide AvgAfter;
    if o.avgFillPrice.Some? {
      AvgUnmoved(o, f);
    }
  }

  /**
   One fill from any synced state: the OMS and its log stay in step exactly when the fill is this
   book's, or already seen, or for no known order, or changes nothing about the order. Otherwise
   the order is updated before the book refuses the fill, and no event records it.
   */
  lemma FillKeepsSyncExactly(s: State, f: Fill)
    requires Synced(s)
    ensures Synced(Next(s, FillArrived(f))) <==>
      || f.bookId == s.core.book.bookId
      || f.fillId in s.core.book.seen
      || f.coid !in s.core.orders
      || LeavesOrder(s.core.orders[f.coid], f)
  {
    hide AvgAfter, ApplyToLedger, PositionOf, LeavesOrder, Replay;
    var c := s.core;
    var e, s' := OnFill(c, f), Next(s, FillArrived(f));
    var r := Restore(c.book.bookId, c.book.startingCash, s.log);
    if f.bookId == c.book.bookId {
      StepSynced(s, FillArrived(f));
    } else {
      assert forall a | a in e.events :: IsNote(a);
      ReplayConcat(NewCore(c.book.bookId, c.book.startingCash), s.log, e.events);
      ReplayNotes(r, e.events);
      if f.fillId !in c.book.seen && f.coid in c.orders {
        var o := c.orders[f.coid];
        LeavesOrderExactly(o, f);
        assert Plain(e.core.orders[f.coid]) == Plain(FilledOrder(o, f));
        assert Plain(r.orders[f.coid]) == Plain(o);
      }
    }
  }

  /** The order a foreign fill corrupts: half filled in memory, untouched in the log. */
  lemma ForeignFillUnrecorded(intent: Intent, f: Fill)
    requires intent.bookId == "A" && intent.quantity == Some(10) && intent.kind == OpenRisk
    requires f.bookId == "B" && f.coid == "c1" && f.quantity == 5
    ensures
      var s := Run(NewState("A", 0.0), [Submit(intent, "c1", None, Some(10), 0), FillArrived(f)]);
      && "c1" in s.core.orders && s.core.orders["c1"].filledQty == 5
      && !Synced(s)
  {
    var s0 := NewState("A", 0.0);
    var submit := Submit(intent, "c1", None, Some(10), 0);
    var s1 := Next(s0, submit);
    var o := Order("c1", intent, 10, SUBMITTED, None, 0, None, 0, 0);
    assert s1.core.book == s0.core.book && s1.core.orders == map["c1" := o] && Synced(s1) by {
      hide Reducible, Replay;
      assert Decide(s0.core, intent, "c1", None, Some(10), 0) == Route(o);
      StepSynced(s0, submit);
    }
    hide Next, Synced;
    assert [submit, FillArrived(f)][..1] == [submit] && [submit][..0] == [];
    assert Run(s0, [submit]) == s1;
    FillKeepsSyncExactly(s1, f);
    ForeignFillHalves(s1, o, f);
  }

  lemma ForeignFillHalves(s: State, o: Order, f: Fill)
    requires s.core.orders == map["c1" := o] && o.filledQty == 0 && o.quantity == 10
    requires f.coid == "c1" && f.quantity == 5 && f.bookId != s.core.book.bookId && f.fillId !in s.core.book.seen
    ensures
      var orders := Next(s, FillArrived(f)).core.orders;
      "c1" in orders && orders["c1"].filledQty == 5
  {
    hide AvgAfter, ApplyToLedger, PositionOf;
  }

  // ---- A log shared with other books --------------------------------------------------------------------

  /** The book an event belongs to, for the events restore reads. */
  function BookOf(e: Event): Option<string> {
    match e
    case OrderSubmitted(order) => Some(order.intent.bookId)
    case FillReceived(f, _, _, _) => Some(f.bookId)
    case OrderAcked(_, b, _, _) => Some(b)
    case OrderRejected(_, b, _) => Some(b)
    case OrderUnknown(_, b) => Some(b)
    case OrderCancelled(_, b, _) => Some(b)
    case OrderExpired(_, b, _) => Some(b)
    case _ => None
  }

  function OwnEvents(log: seq<Event>, bookId: string): seq<Event> {
    if log == [] then [] else
      var rest := OwnEvents(log[..|log| - 1], bookId);
      if BookOf(log[|log| - 1]) == Some(bookId) then rest + [log[|log| - 1]] else rest
  }

  /** Other books' events in the same store change nothing: restore reads the log as if filtered. */
  lemma {:induction false} ForeignEventsIgnored(bookId: string, cash: real, log: seq<Event>)
    ensures Restore(bookId, cash, log) == Restore(bookId, cash, OwnEvents(log, bookId))
  {
    if log != [] {
      var init, e := log[..|log| - 1], log[|log| - 1];
      ForeignEventsIgnored(bookId, cash, init);
      ReplayKeepsBookId(NewCore(bookId, cash), init);
      if BookOf(e) == Some(bookId) {
        var own := OwnEvents(init, bookId);
        assert (own + [e])[..|own|] == own;
      }
    }
  }
}

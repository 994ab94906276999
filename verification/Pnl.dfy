/**
 P&L conservation across three components: the book's realised P&L, the TradeClosed events the OMS
 emits, and the risk tracker fed by them.
 */
module Pnl {
  import opened Domain
  import opened Sums
  import opened PositionBook
  import opened BookProofs
  import opened BookCharges
  import opened Oms
  import opened OmsRestart
  import opened OmsOnce
  import RiskState

  // ---- The book -------------------------------------------------------------------------------------

  function NetOf(pieces: seq<ClosedPiece>): real {
    if pieces == [] then 0.0 else NetOf(pieces[..|pieces| - 1]) + pieces[|pieces| - 1].Net()
  }

  lemma {:induction false} NetConcat(a: seq<ClosedPiece>, b: seq<ClosedPiece>)
    ensures NetOf(a + b) == NetOf(a) + NetOf(b)
  {
    if b == [] {
      assert a + b == a;
    } else {
      assert (a + b)[..|a + b| - 1] == a + b[..|b| - 1];
      NetConcat(a, b[..|b| - 1]);
    }
  }

  lemma {:induction false} CloseAllNet(c: Closing, direction: int, f: Fill, product: Product, reason: string)
    ensures
      var e := CloseAll(c, direction, f, product, reason);
      e.realized - NetOf(e.closed) == c.realized - NetOf(c.closed)
    decreases c.remaining
  {
    hide Share, Gross;
    if c.remaining != 0 && c.lots != [] {
      var d := CloseStep(c, direction, f, product, reason);
      assert d.closed[..|c.closed|] == c.closed;
      CloseAllNet(d, direction, f, product, reason);
    }
  }

  ghost function LedgerPnl(b: BookState): map<Key, real> { map k | k in b.ledgers :: b.ledgers[k].realized }

  /** A fill realises exactly the net of the pieces it closes. */
  lemma FillRealizes(b: BookState, f: Fill, product: Product, strategy: string, reason: string)
    requires f.bookId == b.bookId && f.fillId !in b.seen
    ensures
      var (b', outcome) := ApplyFill(b, f, product, strategy, reason);
      outcome.Outcome? && Realized(b') == Realized(b) + NetOf(outcome.closed)
  {
    hide CloseAll, PositionOf;
    var key := Key(f.instrument, product);
    var l := b.LedgerAt(key);
    CloseAllNet(Closing(l.lots, f.quantity, f.charges, [], l.realized), l.direction, f, product, reason);
    var (l', closed) := ApplyToLedger(l, f, product, strategy, reason);
    assert l'.realized == l.realized + NetOf(closed);
    hide ApplyToLedger, NetOf;
    var b' := ApplyFill(b, f, product, strategy, reason).0;
    SumUpdate(LedgerPnl(b), key, l'.realized);
    assert LedgerPnl(b') == LedgerPnl(b)[key := l'.realized];
    assert Realized(b) == Sum(LedgerPnl(b)) && Realized(b') == Sum(LedgerPnl(b'));
  }

  // ---- The events -----------------------------------------------------------------------------------

  /** The pieces of the TradeClosed events, in order. */
  function Trades(log: seq<Event>): seq<ClosedPiece> {
    if log == [] then [] else
      Trades(log[..|log| - 1]) + if log[|log| - 1].TradeClosed? then [log[|log| - 1].piece] else []
  }

  lemma {:induction false} TradesConcat(a: seq<Event>, b: seq<Event>)
    ensures Trades(a + b) == Trades(a) + Trades(b)
  {
    if b == [] {
      assert a + b == a;
    } else {
      assert (a + b)[..|a + b| - 1] == a + b[..|b| - 1];
      TradesConcat(a, b[..|b| - 1]);
    }
  }

  lemma {:induction false} NoTrades(es: seq<Event>)
    requires forall e | e in es :: !e.TradeClosed?
    ensures Trades(es) == []
  {
    if es != [] {
      NoTrades(es[..|es| - 1]);
      assert !es[|es| - 1].TradeClosed?;
    }
  }

  lemma {:induction false} TradesOfEvents(bookId: string, closed: seq<ClosedPiece>)
    ensures Trades(TradeEvents(bookId, closed)) == closed
  {
    if closed != [] {
      var init := closed[..|closed| - 1];
      TradesOfEvents(bookId, init);
      var es := TradeEvents(bookId, closed);
      assert es[..|es| - 1] == TradeEvents(bookId, init);
    }
  }

  lemma {:induction false} RecordablePrefix(closed: seq<ClosedPiece>)
    ensures |Recordable(closed)| <= |closed| && Recordable(closed) == closed[..|Recordable(closed)|]
    ensures (forall p | p in closed :: 0.0 <= p.Charges()) ==> Recordable(closed) == closed
  {
    if closed != [] && 0.0 <= closed[0].Charges() {
      RecordablePrefix(closed[1..]);
      assert forall p | p in closed[1..] :: p in closed;
    }
  }

  // ---- The gap between them -------------------------------------------------------------------------

  /** Booked P&L that no TradeClosed event carries. */
  ghost function Gap(c: Core, log: seq<Event>): real { Realized(c.book) - NetOf(Trades(log)) }

  /** The pieces a fill closes without an event: all of a stray fill's, and those from the first unbuildable one. */
  function Unrecorded(c: Core, f: Fill): seq<ClosedPiece> {
    if f.fillId in c.book.seen || f.bookId != c.book.bookId then []
    else if f.coid !in c.orders then BookStray(c.book, f).1.closed
    else
      var closed := BookFill(c.book, f, c.orders[f.coid].intent).1.closed;
      if |Recordable(closed)| <= |closed| then closed[|Recordable(closed)|..] else []
  }

  /** Every fill, in any state, widens the gap by exactly the net of the pieces it leaves unrecorded. */
  lemma FillGap(c: Core, log: seq<Event>, f: Fill)
    ensures Gap(OnFill(c, f).core, log + OnFill(c, f).events) == Gap(c, log) + NetOf(Unrecorded(c, f))
  {
    hide NetOf, Trades;
    if f.fillId in c.book.seen {
      assert log + [] == log;
      NoPieces();
    } else if f.coid in c.orders {
      OrderFillGap(c, log, f);
    } else {
      StrayFillGap(c, log, f);
    }
  }

  lemma NoPieces()
    ensures NetOf([]) == 0.0
  {
  }

  lemma StrayFillGap(c: Core, log: seq<Event>, f: Fill)
    requires f.fillId !in c.book.seen && f.coid !in c.orders
    ensures Gap(OnFill(c, f).core, log + OnFill(c, f).events) == Gap(c, log) + NetOf(Unrecorded(c, f))
  {
    hide ApplyToLedger, PositionOf, NetOf, Trades, Realized;
    var e := OnFill(c, f);
    TradesConcat(log, e.events);
    NoTrades(e.events);
    assert Trades(log) + [] == Trades(log);
    NoPieces();
    if f.bookId == c.book.bookId {
      FillRealizes(c.book, f, CNC, "unknown", "");
    }
  }

  lemma OrderFillGap(c: Core, log: seq<Event>, f: Fill)
    requires f.fillId !in c.book.seen && f.coid in c.orders
    ensures Gap(OnFill(c, f).core, log + OnFill(c, f).events) == Gap(c, log) + NetOf(Unrecorded(c, f))
  {
    hide ApplyToLedger, PositionOf, NetOf, Trades, Realized, AvgAfter, Recordable, TradeEvents;
    var o, e := c.orders[f.coid], OnFill(c, f);
    var outcome := BookFill(c.book, f, o.intent).1;
    NoPieces();
    TradesConcat(log, e.events);
    if f.bookId != c.book.bookId {
      NoTrades(e.events);
      assert Trades(log) + [] == Trades(log);
    } else {
      var alerts := if o.filledQty + f.quantity > o.quantity then [Alert("oms_overfill")] else [];
      var head := alerts + [FillReceived(f, StatusAfter(o, f), FilledAfter(o, f), AvgAfter(o, f)),
                            PositionChanged(outcome.position, f.fillId)];
      var kept := Recordable(outcome.closed);
      assert e.events == head + TradeEvents(c.book.bookId, kept);
      TradesConcat(head, TradeEvents(c.book.bookId, kept));
      NoTrades(head);
      TradesOfEvents(c.book.bookId, kept);
      assert Trades(e.events) == [] + kept == kept;
      NetConcat(Trades(log), kept);
      RecordablePrefix(outcome.closed);
      assert outcome.closed == kept + outcome.closed[|kept|..];
      NetConcat(kept, outcome.closed[|kept|..]);
      FillRealizes(c.book, f, o.intent.product, o.intent.strategy, o.intent.reason);
    }
  }

  // ---- Every run ------------------------------------------------------------------------------------

  /** The fill is this book's, for a known order, and every piece it closes can be recorded. */
  ghost predicate Recorded(c: Core, f: Fill) {
    f.fillId !in c.book.seen ==>
      && f.bookId == c.book.bookId && f.coid in c.orders
      && forall p | p in BookFill(c.book, f, c.orders[f.coid].intent).1.closed :: 0.0 <= p.Charges()
  }

  ghost predicate RecordedAll(c: Core, fills: seq<Fill>)
    decreases |fills|
  {
    fills != [] ==> Recorded(c, fills[0]) && RecordedAll(OnFill(c, fills[0]).core, fills[1..])
  }

  ghost predicate RecordedRun(s: State, steps: seq<Step>) {
    steps != [] ==>
      && RecordedRun(s, steps[..|steps| - 1])
      && RecordedAll(Run(s, steps[..|steps| - 1]).core, FillsOf(steps[|steps| - 1]))
  }

  // What a caller can check before each fill, instead of looking at the pieces it produced.

  function LedgerOf(c: Core, f: Fill): Ledger
    requires f.coid in c.orders
  {
    c.book.LedgerAt(Key(f.instrument, c.orders[f.coid].intent.product))
  }

  /** A fill against the position leaves enough of its charges for its last piece or flipped lot. */
  predicate Fits(l: Ledger, f: Fill) { Against(l, f) ==> LastCovered(l, f) }

  /** The fill is this book's, for a known order, with charges on the grid that fit the lots it meets. */
  ghost predicate Chargeable(c: Core, f: Fill) {
    f.fillId !in c.book.seen ==>
      f.bookId == c.book.bookId && f.coid in c.orders && OnGrid(f.charges) && Fits(LedgerOf(c, f), f)
  }

  ghost predicate ChargeableAll(c: Core, fills: seq<Fill>)
    decreases |fills|
  {
    fills != [] ==> Chargeable(c, fills[0]) && ChargeableAll(OnFill(c, fills[0]).core, fills[1..])
  }

  ghost predicate ChargeableRun(s: State, steps: seq<Step>) {
    steps != [] ==>
      && ChargeableRun(s, steps[..|steps| - 1])
      && ChargeableAll(Run(s, steps[..|steps| - 1]).core, FillsOf(steps[|steps| - 1]))
  }

  /** No open lot carries negative charges, or charges off the grid. */
  ghost predicate GriddedBook(b: BookState) { forall k | k in b.ledgers :: b.ledgers[k].Valid() && Gridded(b.ledgers[k].lots) }

  lemma BookKeepsGridded(b: BookState, f: Fill, product: Product, strategy: string, reason: string)
    requires GriddedBook(b) && f.bookId == b.bookId && f.fillId !in b.seen && OnGrid(f.charges)
    requires var l := b.LedgerAt(Key(f.instrument, product)); Flips(l, f) ==> LastCovered(l, f)
    ensures GriddedBook(ApplyFill(b, f, product, strategy, reason).0)
  {
    hide ApplyToLedger, PositionOf, Gridded, OnGrid, LastCovered, Flips;
    var l := b.LedgerAt(Key(f.instrument, product));
    NothingGridded();
    FillKeepsWorth(l, f, product, strategy, reason);
    FillKeepsGriddedExactly(l, f, product, strategy, reason);
  }

  lemma NothingGridded()
    ensures Gridded([]) && EMPTY.Valid()
  {
  }

  /** An own fill of a known order escapes as an exception exactly when its last charge is negative. */
  lemma FillRaisesExactly(c: Core, f: Fill)
    requires GriddedBook(c.book) && f.fillId !in c.book.seen && f.bookId == c.book.bookId && f.coid in c.orders
    ensures OnFill(c, f).raised <==> (Against(LedgerOf(c, f), f) && !Flips(LedgerOf(c, f), f) && !LastCovered(LedgerOf(c, f), f))
    ensures OnFill(c, f).raised <==> !Recorded(c, f)
  {
    hide PositionOf, LastCovered, Flips, OnGrid, AvgAfter;
    var intent, l := c.orders[f.coid].intent, LedgerOf(c, f);
    assert l.Valid() && Charged(l.lots);
    FillAcceptedExactly(l, f, intent.product, intent.strategy, intent.reason);
    RecordableExactly(BookFill(c.book, f, intent).1.closed);
    hide ApplyToLedger, Recordable;
  }

  lemma {:induction false} RecordableExactly(closed: seq<ClosedPiece>)
    ensures |Recordable(closed)| < |closed| <==> !Accepted(closed)
  {
    if closed != [] {
      assert closed[0] in closed && forall p | p in closed[1..] :: p in closed;
      RecordableExactly(closed[1..]);
      assert forall p | p in closed :: p == closed[0] || p in closed[1..];
    }
  }

  /** Checked before the fill, it records all its trades, and leaves the book fit for the next. */
  lemma ChargeableRecords(c: Core, f: Fill)
    requires GriddedBook(c.book) && Chargeable(c, f)
    ensures Recorded(c, f) && GriddedBook(OnFill(c, f).core.book)
  {
    if f.fillId !in c.book.seen {
      FillRaisesExactly(c, f);
      var intent := c.orders[f.coid].intent;
      BookKeepsGridded(c.book, f, intent.product, intent.strategy, intent.reason);
      BookAfterFill(c, f);
      hide GriddedBook, OnFill, ApplyFill, Recorded, LastCovered, Flips, OnGrid;
    }
  }

  lemma BookAfterFill(c: Core, f: Fill)
    requires f.fillId !in c.book.seen && f.bookId == c.book.bookId && f.coid in c.orders
    ensures OnFill(c, f).core.book == BookFill(c.book, f, c.orders[f.coid].intent).0
  {
    hide ApplyToLedger, PositionOf, AvgAfter, Recordable;
  }

  lemma {:induction false} ChargeableAllRecords(c: Core, fills: seq<Fill>)
    requires GriddedBook(c.book) && ChargeableAll(c, fills)
    ensures RecordedAll(c, fills) && GriddedBook(AdoptFills(c, fills).core.book)
    decreases |fills|
  {
    hide GriddedBook, OnFill, Recorded, Chargeable;
    if fills != [] {
      ChargeableRecords(c, fills[0]);
      ChargeableAllRecords(OnFill(c, fills[0]).core, fills[1..]);
    }
  }

  /** The book changes only by the fills of a step, so it stays as they leave it. */
  lemma StepBook(s: State, step: Step)
    requires Synced(s)
    ensures
      var b := Next(s, step).core.book;
      b == s.core.book || (FillsOf(step) != [] && b == AdoptFills(s.core, FillsOf(step)).core.book)
  {
    hide AdoptFills, Advances, Without;
    match step
    case FillArrived(f) => hide OnFill, Synced; OneAdopted(s.core, f);
    case TagTrades(snap, trades) => hide Synced, AckFound; if snap.coid in s.core.orders { ResolvedBook(s.core, snap, trades); NoneAdopted(s.core); }
    case Reconciliation(trades, _) => hide Synced; NoneAdopted(s.core);
    case Restart => hide Replay;
    case Submit(_, _, _, _, _) => hide Synced, Reducible;
    case _ => hide Synced; QuietStep(s, step); hide StepEffect;
  }

  lemma ResolvedBook(c: Core, snap: Snapshot, trades: seq<Fill>)
    requires snap.coid in c.orders
    ensures TagResolved(c, snap, trades).core.book == AdoptFills(c, trades).core.book
  {
    hide AdoptFills, Advances, Without;
  }

  lemma NoneAdopted(c: Core)
    ensures AdoptFills(c, []).core == c
  {
  }

  lemma OneAdopted(c: Core, f: Fill)
    ensures AdoptFills(c, [f]).core == OnFill(c, f).core
  {
    hide OnFill;
    assert [f][1..] == [];
  }

  lemma {:induction false} ChargeableRunRecords(bookId: string, cash: real, steps: seq<Step>)
    requires OwnFills(bookId, steps) && ChargeableRun(NewState(bookId, cash), steps)
    ensures RecordedRun(NewState(bookId, cash), steps)
    ensures GriddedBook(Run(NewState(bookId, cash), steps).core.book)
  {
    if steps != [] {
      hide Next, Synced, GriddedBook;
      var before, step := steps[..|steps| - 1], steps[|steps| - 1];
      assert forall st | st in before :: st in steps;
      ChargeableRunRecords(bookId, cash, before);
      RestartRefinement(bookId, cash, before);
      var s := Run(NewState(bookId, cash), before);
      StepBook(s, step);
      ChargeableAllRecords(s.core, FillsOf(step));
    }
  }

  lemma RecordedFill(c: Core, log: seq<Event>, f: Fill)
    requires Recorded(c, f)
    ensures Gap(OnFill(c, f).core, log + OnFill(c, f).events) == Gap(c, log)
  {
    FillGap(c, log, f);
    hide ApplyToLedger, PositionOf, Gap;
    if f.fillId !in c.book.seen {
      RecordablePrefix(BookFill(c.book, f, c.orders[f.coid].intent).1.closed);
      assert Unrecorded(c, f) == [];
    }
  }

  lemma {:induction false} AdoptGap(c: Core, log: seq<Event>, fills: seq<Fill>)
    requires RecordedAll(c, fills)
    ensures Gap(AdoptFills(c, fills).core, log + AdoptFills(c, fills).events) == Gap(c, log)
    decreases |fills|
  {
    hide Gap, OnFill, Recorded;
    if fills == [] {
      assert log + [] == log;
    } else {
      var first := OnFill(c, fills[0]);
      RecordedFill(c, log, fills[0]);
      if !first.raised {
        AdoptGap(first.core, log + first.events, fills[1..]);
        var rest := AdoptFills(first.core, fills[1..]);
        assert log + first.events + rest.events == log + (first.events + rest.events);
      }
    }
  }

  /** A step that books nothing and closes nothing. */
  lemma QuietGap(c: Core, log: seq<Event>, e: Effect)
    requires e.core.book == c.book && forall ev | ev in e.events :: !ev.TradeClosed?
    ensures Gap(e.core, log + e.events) == Gap(c, log)
  {
    TradesConcat(log, e.events);
    NoTrades(e.events);
    assert Trades(log) + [] == Trades(log);
  }

  lemma StepGap(s: State, step: Step)
    requires Synced(s) && RecordedAll(s.core, FillsOf(step))
    ensures Gap(Next(s, step).core, Next(s, step).log) == Gap(s.core, s.log)
  {
    hide Gap, AdoptFills, Advances, Without;
    var c := s.core;
    match step
    case Submit(_, _, _, _, _) => hide Reducible, Synced; QuietGap(c, s.log, StepEffect(s, step));
    case FillArrived(f) =>
      hide OnFill, Synced;
      assert RecordedAll(c, [f]);
      RecordedFill(c, s.log, f);
    case TagTrades(snap, trades) =>
      hide Synced, AckFound;
      AdoptGap(c, s.log, trades);
      if snap.coid in c.orders {
        ResolvedGap(c, s.log, snap, trades);
      } else {
        assert s.log + [] == s.log;
      }
    case Reconciliation(trades, inSync) =>
      hide Synced;
      AdoptGap(c, s.log, trades);
      var adopted := AdoptFills(c, trades);
      if !adopted.raised {
        var notes := [ReconciliationResult(c.book.bookId, inSync)] + if inSync then [] else [Alert("SYS_RECON_DRIFT")];
        QuietGap(adopted.core, s.log + adopted.events, Effect(adopted.core, notes, false));
        assert s.log + adopted.events + notes == s.log + (adopted.events + notes);
      }
    case Restart => hide Replay; assert s.log + [] == s.log; SameBookGap(c, Next(s, step).core, s.log);
    case _ => hide Synced; QuietStep(s, step); hide StepEffect; QuietGap(c, s.log, StepEffect(s, step));
  }

  lemma SameBookGap(a: Core, b: Core, log: seq<Event>)
    requires a.book == b.book
    ensures Gap(a, log) == Gap(b, log)
  {
  }

  lemma ResolvedGap(c: Core, log: seq<Event>, snap: Snapshot, trades: seq<Fill>)
    requires snap.coid in c.orders
    requires Gap(AdoptFills(c, trades).core, log + AdoptFills(c, trades).events) == Gap(c, log)
    ensures Gap(TagResolved(c, snap, trades).core, log + TagResolved(c, snap, trades).events) == Gap(c, log)
  {
    hide Gap, AdoptFills, Advances, Without;
    var adopted := AdoptFills(c, trades);
    if !adopted.raised {
      var ack := AckFound(adopted.core, snap, c.orders[snap.coid].intent.bookId);
      QuietGap(adopted.core, log + adopted.events, ack);
      assert log + adopted.events + ack.events == log + (adopted.events + ack.events);
    }
  }

  lemma {:induction false} RecordedRunGap(bookId: string, cash: real, steps: seq<Step>)
    requires OwnFills(bookId, steps) && RecordedRun(NewState(bookId, cash), steps)
    ensures var s := Run(NewState(bookId, cash), steps); Gap(s.core, s.log) == 0.0
  {
    if steps != [] {
      hide Next, Synced;
      var before, step := steps[..|steps| - 1], steps[|steps| - 1];
      assert forall st | st in before :: st in steps;
      RecordedRunGap(bookId, cash, before);
      RestartRefinement(bookId, cash, before);
      StepGap(Run(NewState(bookId, cash), before), step);
    }
  }

  /** In every run whose fills are chargeable, each checked before it is booked, realised P&L is the sum of TradeClosed. */
  lemma BookMatchesTrades(bookId: string, cash: real, steps: seq<Step>)
    requires OwnFills(bookId, steps) && ChargeableRun(NewState(bookId, cash), steps)
    ensures var s := Run(NewState(bookId, cash), steps); Realized(s.core.book) == NetOf(Trades(s.log))
  {
    ChargeableRunRecords(bookId, cash, steps);
    RecordedRunGap(bookId, cash, steps);
  }

  // ---- The tracker ----------------------------------------------------------------------------------

  /** What the tracker records of a TradeClosed event. */
  function Heard(p: ClosedPiece): RiskState.Trade {
    RiskState.Trade(p.strategy, p.key.instrument, p.exitDecisionId, p.Net())
  }

  /** on_event: the tracker as a listener of the OMS. */
  function HeardAs(e: Event, today: int, now: int): seq<RiskState.Op> {
    match e
    case OrderSubmitted(o) =>
      [RiskState.RecordOrder(today, now, o.intent.strategy, o.intent.instrument, o.intent.ReduceOnly())]
    case OrderRejected(_, _, _) => [RiskState.RecordReject(today, now)]
    case TradeClosed(_, piece) => [RiskState.RecordTrade(today, Heard(piece))]
    case _ => []
  }

  /** What reaches the tracker of an order, a rejection and a trade; nothing of any other event. */
  lemma HeardFacts(e: Event, today: int, now: int)
    ensures
      var ops := HeardAs(e, today, now);
      && |ops| == (if e.OrderSubmitted? || e.OrderRejected? || e.TradeClosed? then 1 else 0)
      && (e.OrderSubmitted? ==>
            && ops[0].RecordOrder? && ops[0].today == today && ops[0].now == now
            && ops[0].strategy == e.order.intent.strategy && ops[0].instrument == e.order.intent.instrument
            && (ops[0].reduces <==> e.order.intent.kind in {ReduceRisk, CloseRisk, FlattenRisk}))
      && (e.OrderRejected? ==> ops[0].RecordReject? && ops[0].today == today && ops[0].now == now)
      && (e.TradeClosed? ==>
            && ops[0].RecordTrade? && ops[0].today == today && ops[0].trade.strategy == e.piece.strategy
            && ops[0].trade.instrument == e.piece.key.instrument && ops[0].trade.exit == e.piece.exitDecisionId
            && ops[0].trade.net == e.piece.gross - e.piece.entryCharges - e.piece.exitCharges)
  {
  }

  /** The tracker after hearing a step's events, in the order they were emitted. */
  ghost function Hear(l: RiskState.Limits, t: RiskState.Tracker, events: seq<Event>, today: int, now: int): RiskState.Tracker {
    if events == [] then t else
      RiskState.Run(l, Hear(l, t, events[..|events| - 1], today, now), HeardAs(events[|events| - 1], today, now))
  }

  // ---- OMS and tracker together -----------------------------------------------------------------------

  datatype Desk = Desk(oms: State, tracker: RiskState.Tracker)

  datatype DeskOp =
    | OmsStep(step: Step, today: int, now: int)    // and the tracker hears what it emits
    | TrackerOp(op: RiskState.Op)                  // a new day, a tick, an acknowledgement
    | Reboot                                       // both start again from what they saved

  ghost function DeskNext(l: RiskState.Limits, d: Desk, op: DeskOp): Desk {
    match op
    case OmsStep(step, today, now) =>
      Desk(Next(d.oms, step), Hear(l, d.tracker, StepEffect(d.oms, step).events, today, now))
    case TrackerOp(o) => d.(tracker := RiskState.Step(l, d.tracker, o))
    case Reboot => Desk(Next(d.oms, Restart), RiskState.Step(l, d.tracker, RiskState.Reload))
  }

  ghost function DeskRun(l: RiskState.Limits, d: Desk, ops: seq<DeskOp>): Desk {
    if ops == [] then d else DeskNext(l, DeskRun(l, d, ops[..|ops| - 1]), ops[|ops| - 1])
  }

  /** The clock does not go back, and only the OMS tells the tracker about orders and trades. */
  ghost predicate Timely(d: Desk, op: DeskOp) {
    match op
    case OmsStep(step, today, _) => !step.Restart? && d.tracker.state.Some? && d.tracker.state.value.day <= today
    case TrackerOp(o) => (o.Start? || o.Tick? || o.Acknowledge?) && RiskState.Forward(d.tracker, o)
    case Reboot => true
  }

  ghost predicate TimelyRun(l: RiskState.Limits, d: Desk, ops: seq<DeskOp>) {
    ops != [] ==> TimelyRun(l, d, ops[..|ops| - 1]) && Timely(DeskRun(l, d, ops[..|ops| - 1]), ops[|ops| - 1])
  }

  /** A new OMS beside a tracker whose first day has started. */
  ghost function NewDesk(l: RiskState.Limits, bookId: string, cash: real, day: int, sod: real): Desk {
    Desk(NewState(bookId, cash), RiskState.Step(l, RiskState.FRESH, RiskState.Start(day, sod)))
  }

  /** The OMS's own steps in a joint run. */
  function StepsOf(ops: seq<DeskOp>): seq<Step> {
    if ops == [] then [] else
      var op := ops[|ops| - 1];
      StepsOf(ops[..|ops| - 1]) + if op.OmsStep? then [op.step] else if op.Reboot? then [Restart] else []
  }

  lemma {:induction false} DeskOms(l: RiskState.Limits, d: Desk, ops: seq<DeskOp>)
    ensures DeskRun(l, d, ops).oms == Run(d.oms, StepsOf(ops))
  {
    if ops != [] {
      hide Next, StepEffect, RiskState.Step, Hear;
      DeskOms(l, d, ops[..|ops| - 1]);
      var steps := StepsOf(ops);
      if ops[|ops| - 1].TrackerOp? {
        assert StepsOf(ops[..|ops| - 1]) + [] == StepsOf(ops[..|ops| - 1]);
      } else {
        assert steps[..|steps| - 1] == StepsOf(ops[..|ops| - 1]);
      }
    }
  }

  ghost predicate Running(t: RiskState.Tracker, today: int) {
    RiskState.SoundTracker(t) && t.state.Some? && t.state.value.day <= today
  }

  lemma StepRuns(l: RiskState.Limits, t: RiskState.Tracker, op: RiskState.Op, today: int)
    requires Running(t, today) && RiskState.OnDay(op, today) && !op.Acknowledge? && !op.Reload?
    ensures Running(RiskState.Step(l, t, op), today)
  {
    RiskState.StepSound(l, t, op);
    hide RiskState.SoundTracker, RiskState.OrderRecorded, RiskState.TradeRecorded, RiskState.Ticked, RiskState.Recent;
  }

  lemma HearOne(l: RiskState.Limits, t: RiskState.Tracker, e: Event, today: int, now: int)
    requires Running(t, today)
    ensures
      var t' := RiskState.Run(l, t, HeardAs(e, today, now));
      && Running(t', today)
      && RiskState.TrackedPnl(t') == RiskState.TrackedPnl(t) + if e.TradeClosed? then e.piece.Net() else 0.0
  {
    var ops := HeardAs(e, today, now);
    if ops != [] {
      assert ops[..0] == [] && RiskState.OnDay(ops[0], today) && RiskState.Forward(t, ops[0]);
      StepRuns(l, t, ops[0], today);
      RiskState.StepPnl(l, t, ops[0]);
      hide RiskState.Step, RiskState.TrackedPnl, Running;
      assert RiskState.Run(l, t, ops) == RiskState.Step(l, t, ops[0]);
    }
  }

  /** Hearing a step's events moves the tracker by exactly the net of the trades among them. */
  lemma {:induction false} HearPnl(l: RiskState.Limits, t: RiskState.Tracker, events: seq<Event>, today: int, now: int)
    requires Running(t, today)
    ensures Running(Hear(l, t, events, today, now), today)
    ensures RiskState.TrackedPnl(Hear(l, t, events, today, now)) == RiskState.TrackedPnl(t) + NetOf(Trades(events))
  {
    hide Running, RiskState.TrackedPnl;
    if events != [] {
      var init, e := events[..|events| - 1], events[|events| - 1];
      HearPnl(l, t, init, today, now);
      HearOne(l, Hear(l, t, init, today, now), e, today, now);
      NetConcat(Trades(init), if e.TradeClosed? then [e.piece] else []);
      NoPieces();
      if e.TradeClosed? { assert [e.piece][..0] == []; }
    }
  }

  ghost predicate Tracks(d: Desk) {
    && RiskState.SoundTracker(d.tracker) && d.tracker.state.Some?
    && RiskState.TrackedPnl(d.tracker) == NetOf(Trades(d.oms.log))
  }

  lemma DeskStepTracks(l: RiskState.Limits, d: Desk, op: DeskOp)
    requires Tracks(d) && Timely(d, op)
    ensures Tracks(DeskNext(l, d, op))
  {
    match op
    case OmsStep(step, today, now) =>
      var events := StepEffect(d.oms, step).events;
      HearPnl(l, d.tracker, events, today, now);
      TradesConcat(d.oms.log, events);
      NetConcat(Trades(d.oms.log), Trades(events));
      assert Next(d.oms, step).log == d.oms.log + events;
    case TrackerOp(o) => TrackerOpTracks(l, d.tracker, o);
    case Reboot => assert d.oms.log + [] == d.oms.log;
  }

  lemma TrackerOpTracks(l: RiskState.Limits, t: RiskState.Tracker, o: RiskState.Op)
    requires RiskState.SoundTracker(t) && RiskState.Forward(t, o) && (o.Start? || o.Tick? || o.Acknowledge?)
    ensures
      var t' := RiskState.Step(l, t, o);
      RiskState.SoundTracker(t') && t'.state.Some? && RiskState.TrackedPnl(t') == RiskState.TrackedPnl(t)
  {
    RiskState.StepSound(l, t, o);
    RiskState.StepPnl(l, t, o);
    RiskState.StepPeak(l, t, o);
  }

  lemma {:induction false} DeskRunTracks(l: RiskState.Limits, bookId: string, cash: real, day: int, sod: real, ops: seq<DeskOp>)
    requires TimelyRun(l, NewDesk(l, bookId, cash, day, sod), ops)
    ensures Tracks(DeskRun(l, NewDesk(l, bookId, cash, day, sod), ops))
  {
    var d := NewDesk(l, bookId, cash, day, sod);
    if ops == [] {
      RiskState.RunSound(l, []);
      RiskState.StepSound(l, RiskState.FRESH, RiskState.Start(day, sod));
      NoPieces();
    } else {
      hide Tracks, DeskNext, Timely;
      DeskRunTracks(l, bookId, cash, day, sod, ops[..|ops| - 1]);
      DeskStepTracks(l, DeskRun(l, d, ops[..|ops| - 1]), ops[|ops| - 1]);
    }
  }

  /**
   The OMS feeding the tracker, steps, ticks, new days and restarts in any order: when every fill is
   for a known order and chargeable, the book's realised P&L, the sum of TradeClosed, and the
   tracker's P&L over all rolled days plus today are the same number, and each day's is the sum over
   its strategies.
   */
  lemma PnlAgrees(l: RiskState.Limits, bookId: string, cash: real, day: int, sod: real, ops: seq<DeskOp>)
    requires TimelyRun(l, NewDesk(l, bookId, cash, day, sod), ops)
    requires OwnFills(bookId, StepsOf(ops)) && ChargeableRun(NewState(bookId, cash), StepsOf(ops))
    ensures
      var d := DeskRun(l, NewDesk(l, bookId, cash, day, sod), ops);
      && Realized(d.oms.core.book) == NetOf(Trades(d.oms.log)) == RiskState.TrackedPnl(d.tracker)
      && RiskState.SoundTracker(d.tracker)
  {
    DeskOms(l, NewDesk(l, bookId, cash, day, sod), ops);
    BookMatchesTrades(bookId, cash, StepsOf(ops));
    DeskRunTracks(l, bookId, cash, day, sod, ops);
    hide RiskState.SoundTracker;
  }
}

/**
 Exactly once: each fill reaches the book once however often it is delivered, each order's fill
 figures are those of its distinct fills, and each order reaches the broker once across restarts.
 */
module OmsOnce {
  import opened Domain
  import opened PositionBook
  import opened Oms
  import opened OmsRestart

  // ---- What the log says ------------------------------------------------------------------------

  function FillIds(log: seq<Event>): seq<string> {
    if log == [] then [] else
      var e := log[|log| - 1];
      FillIds(log[..|log| - 1]) + if e.FillReceived? then [e.fill.fillId] else []
  }

  /** Quantity and value of an order's recorded fills since it was submitted. */
  datatype Tallied = Tallied(quantity: nat, value: real)

  function Tally(log: seq<Event>, coid: string): Tallied {
    if log == [] then Tallied(0, 0.0) else
      var e, t := log[|log| - 1], Tally(log[..|log| - 1], coid);
      if e.OrderSubmitted? && e.order.coid == coid then Tallied(0, 0.0)
      else if e.FillReceived? && e.fill.coid == coid
      then Tallied(t.quantity + e.fill.quantity, t.value + e.fill.price * e.fill.quantity as real)
      else t
  }

  predicate IsQuiet(e: Event) { !e.FillReceived? && !e.OrderSubmitted? }

  lemma {:induction false} QuietEvents(log: seq<Event>, es: seq<Event>, coid: string)
    requires forall e | e in es :: IsQuiet(e)
    ensures FillIds(log + es) == FillIds(log)
    ensures Tally(log + es, coid) == Tally(log, coid)
  {
    if es == [] {
      assert log + es == log;
    } else {
      assert (log + es)[..|log + es| - 1] == log + es[..|es| - 1];
      assert IsQuiet(es[|es| - 1]);
      QuietEvents(log, es[..|es| - 1], coid);
    }
  }

  // ---- The invariant ----------------------------------------------------------------------------

  ghost predicate Distinct(s: seq<string>) { forall i, j | 0 <= i < j < |s| :: s[i] != s[j] }

  /** The book has taken exactly the recorded fills, each recorded once. */
  ghost predicate SeenOnce(c: Core, log: seq<Event>) {
    && Distinct(FillIds(log))
    && (forall id :: id in c.book.seen <==> id in FillIds(log))
  }

  /** Filled quantity is the recorded sum, capped; absent an overfill the average is the weighted mean. */
  ghost predicate Matches(o: Order, t: Tallied) {
    && o.filledQty == Min(t.quantity, o.quantity)
    && (t.quantity == 0 ==> o.avgFillPrice.None? && t.value == 0.0)
    && (0 < t.quantity <= o.quantity ==>
          o.avgFillPrice.Some? && o.avgFillPrice.value * t.quantity as real == t.value)
  }

  ghost predicate Tallies(c: Core, log: seq<Event>) {
    forall k | k in c.orders :: Matches(c.orders[k], Tally(log, k))
  }

  ghost predicate Once(c: Core, log: seq<Event>) { SeenOnce(c, log) && Tallies(c, log) }

  // ---- Steps that touch neither fills nor submissions -------------------------------------------

  ghost predicate SameFills(a: Core, b: Core) {
    && a.book.seen == b.book.seen
    && a.orders.Keys == b.orders.Keys
    && (forall k | k in a.orders ::
          && a.orders[k].filledQty == b.orders[k].filledQty
          && a.orders[k].avgFillPrice == b.orders[k].avgFillPrice
          && a.orders[k].quantity == b.orders[k].quantity)
  }

  lemma QuietKeepsOnce(c: Core, log: seq<Event>, e: Effect)
    requires Once(c, log) && SameFills(c, e.core) && forall ev | ev in e.events :: IsQuiet(ev)
    ensures Once(e.core, log + e.events)
  {
    QuietEvents(log, e.events, "");
    forall k | k in e.core.orders ensures Matches(e.core.orders[k], Tally(log + e.events, k)) {
      QuietEvents(log, e.events, k);
      assert Matches(c.orders[k], Tally(log, k));
    }
  }

  // ---- A fill -----------------------------------------------------------------------------------

  lemma TradeEventsAreQuiet(bookId: string, closed: seq<ClosedPiece>)
    ensures forall e | e in TradeEvents(bookId, closed) :: IsQuiet(e)
  {
  }

  lemma FillEventsTally(log: seq<Event>, alerts: seq<Event>, received: Event, notes: seq<Event>, coid: string)
    requires received.FillReceived? && forall e | e in alerts + notes :: IsQuiet(e)
    ensures
      var log' := log + (alerts + [received] + notes);
      var t, f := Tally(log, coid), received.fill;
      && FillIds(log') == FillIds(log) + [f.fillId]
      && Tally(log', coid) ==
           if f.coid == coid then Tallied(t.quantity + f.quantity, t.value + f.price * f.quantity as real) else t
  {
    hide Tally, FillIds;
    assert log + (alerts + [received] + notes) == (log + alerts + [received]) + notes;
    QuietEvents(log, alerts, coid);
    TallyOne(log + alerts, received, coid);
    QuietEvents(log + alerts + [received], notes, coid);
  }

  lemma TallyOne(log: seq<Event>, received: Event, coid: string)
    requires received.FillReceived?
    ensures
      var t, f := Tally(log, coid), received.fill;
      && FillIds(log + [received]) == FillIds(log) + [f.fillId]
      && Tally(log + [received], coid) ==
           if f.coid == coid then Tallied(t.quantity + f.quantity, t.value + f.price * f.quantity as real) else t
  {
    assert (log + [received])[..|log|] == log;
  }

  lemma MatchesAfterFill(o: Order, t: Tallied, f: Fill)
    requires Matches(o, t)
    ensures Matches(FilledOrder(o, f), Tallied(t.quantity + f.quantity, t.value + f.price * f.quantity as real))
  {
    var sum := t.quantity + f.quantity;
    if sum <= o.quantity {
      var prior := (if o.avgFillPrice.Some? then o.avgFillPrice.value else 0.0) * o.filledQty as real;
      assert prior == t.value;
      assert AvgAfter(o, f) * sum as real == prior + f.price * f.quantity as real;
    }
  }

  lemma FillKeepsOnce(c: Core, log: seq<Event>, f: Fill)
    requires Once(c, log) && f.bookId == c.book.bookId
    ensures Once(OnFill(c, f).core, log + OnFill(c, f).events)
  {
    hide Once;
    if f.fillId in c.book.seen {
      assert log + [] == log;
    } else if f.coid in c.orders {
      OrderFillKeepsOnce(c, log, f);
    } else {
      StrayFillKeepsOnce(c, log, f);
    }
  }

  /** A fill leaves its order FILLED exactly when the recorded fills reach the order's size. */
  lemma FillCompletes(c: Core, log: seq<Event>, f: Fill)
    requires Once(c, log) && f.bookId == c.book.bookId && f.fillId !in c.book.seen && f.coid in c.orders
    ensures
      var e := OnFill(c, f);
      e.core.orders[f.coid].status
        == if c.orders[f.coid].quantity <= Tally(log + e.events, f.coid).quantity then FILLED else PARTIALLY_FILLED
  {
    OrderFillKeepsOnce(c, log, f);
    hide ApplyFill, AvgAfter, Tally;
    var o, e := c.orders[f.coid], OnFill(c, f);
    assert Matches(e.core.orders[f.coid], Tally(log + e.events, f.coid));
  }

  lemma StrayFillKeepsOnce(c: Core, log: seq<Event>, f: Fill)
    requires Once(c, log) && f.bookId == c.book.bookId && f.fillId !in c.book.seen && f.coid !in c.orders
    ensures Once(OnFill(c, f).core, log + OnFill(c, f).events)
  {
    hide ApplyToLedger, PositionOf, Matches, Tally, FillIds;
    var e := OnFill(c, f);
    var alerts, notes := [e.events[0]], [e.events[2]];
    assert e.events == alerts + [e.events[1]] + notes;
    FillEventsTally(log, alerts, e.events[1], notes, "");
    forall k | k in c.orders ensures Matches(e.core.orders[k], Tally(log + e.events, k)) {
      FillEventsTally(log, alerts, e.events[1], notes, k);
    }
  }

  lemma OrderFillKeepsOnce(c: Core, log: seq<Event>, f: Fill)
    requires Once(c, log) && f.bookId == c.book.bookId && f.fillId !in c.book.seen && f.coid in c.orders
    ensures Once(OnFill(c, f).core, log + OnFill(c, f).events)
  {
    hide ApplyToLedger, PositionOf, AvgAfter, Tally, FillIds, Recordable, TradeEvents, Matches;
    var o := c.orders[f.coid];
    var e := OnFill(c, f);
    var alerts := if o.filledQty + f.quantity > o.quantity then [Alert("oms_overfill")] else [];
    var received := FillReceived(f, StatusAfter(o, f), FilledAfter(o, f), AvgAfter(o, f));
    var (book, outcome) := BookFill(c.book, f, o.intent);
    var trades := TradeEvents(c.book.bookId, Recordable(outcome.closed));
    var notes := [PositionChanged(outcome.position, f.fillId)] + trades;
    TradeEventsAreQuiet(c.book.bookId, Recordable(outcome.closed));
    assert e.events == alerts + [received] + notes;
    FillEventsTally(log, alerts, received, notes, "");
    forall k | k in e.core.orders ensures Matches(e.core.orders[k], Tally(log + e.events, k)) {
      FillEventsTally(log, alerts, received, notes, k);
      if k == f.coid {
        MatchesAfterFill(o, Tally(log, k), f);
        MatchesPlain(FilledOrder(o, f), e.core.orders[k], Tally(log + e.events, k));
      }
    }
  }

  lemma MatchesPlain(a: Order, b: Order, t: Tallied)
    requires Matches(a, t) && Plain(a) == Plain(b)
    ensures Matches(b, t)
  {
  }

  lemma {:induction false} AdoptKeepsOnce(c: Core, log: seq<Event>, fills: seq<Fill>)
    requires Once(c, log) && forall f | f in fills :: f.bookId == c.book.bookId
    ensures Once(AdoptFills(c, fills).core, log + AdoptFills(c, fills).events)
    decreases |fills|
  {
    hide Once, OnFill;
    if fills == [] {
      assert log + [] == log;
    } else {
      var first := OnFill(c, fills[0]);
      FillKeepsOnce(c, log, fills[0]);
      FillKeepsBookId(c, fills[0]);
      if !first.raised {
        AdoptKeepsOnce(first.core, log + first.events, fills[1..]);
        var rest := AdoptFills(first.core, fills[1..]);
        assert log + first.events + rest.events == log + (first.events + rest.events);
      }
    }
  }

  // ---- Every step -------------------------------------------------------------------------------

  lemma TallySubmitted(log: seq<Event>, o: Order, coid: string)
    requires o.filledQty == 0 && o.avgFillPrice.None?
    ensures FillIds(log + [OrderSubmitted(o)]) == FillIds(log)
    ensures o.coid != coid ==> Tally(log + [OrderSubmitted(o)], coid) == Tally(log, coid)
    ensures o.coid == coid ==> Matches(o, Tally(log + [OrderSubmitted(o)], coid))
  {
    assert (log + [OrderSubmitted(o)])[..|log|] == log;
  }

  lemma SubmitKeepsOnce(s: State, step: Step)
    requires Once(s.core, s.log) && step.Submit?
    ensures Once(Next(s, step).core, Next(s, step).log)
  {
    hide Reducible, Matches, Tally, FillIds;
    var c := s.core;
    var d := Decide(c, step.intent, step.coid, step.quantity, step.gate, step.now);
    if d.Route? {
      var e := OrderSubmitted(d.order);
      TallySubmitted(s.log, d.order, step.coid);
      forall k | k in c.orders ensures Matches(c.orders[k], Tally(s.log + [e], k)) {
        TallySubmitted(s.log, d.order, k);
        assert Matches(c.orders[k], Tally(s.log, k));
      }
    } else {
      assert s.log + [] == s.log;
    }
  }

  lemma TagTradesKeepOnce(c: Core, log: seq<Event>, snap: Snapshot, trades: seq<Fill>)
    requires Once(c, log) && snap.coid in c.orders && forall f | f in trades :: f.bookId == c.book.bookId
    ensures Once(TagResolved(c, snap, trades).core, log + TagResolved(c, snap, trades).events)
  {
    hide Once, AdoptFills, OnFill, Advances;
    AdoptKeepsOnce(c, log, trades);
    var adopted := AdoptFills(c, trades);
    if !adopted.raised {
      var ack := AckFound(adopted.core, snap, c.orders[snap.coid].intent.bookId);
      QuietKeepsOnce(adopted.core, log + adopted.events, ack);
      assert log + adopted.events + ack.events == log + (adopted.events + ack.events);
    }
  }

  lemma ReconcileKeepsOnce(c: Core, log: seq<Event>, trades: seq<Fill>, inSync: bool)
    requires Once(c, log) && forall f | f in trades :: f.bookId == c.book.bookId
    ensures Once(Reconcile(c, trades, inSync).core, log + Reconcile(c, trades, inSync).events)
  {
    hide Once, AdoptFills, OnFill;
    AdoptKeepsOnce(c, log, trades);
    var adopted := AdoptFills(c, trades);
    if !adopted.raised {
      var notes := [ReconciliationResult(c.book.bookId, inSync)] + if inSync then [] else [Alert("SYS_RECON_DRIFT")];
      QuietKeepsOnce(adopted.core, log + adopted.events, Effect(adopted.core, notes, false));
      assert log + adopted.events + notes == log + (adopted.events + notes);
    }
  }

  lemma StepKeepsOnce(s: State, step: Step)
    requires Once(s.core, s.log) && Synced(s) && OwnFills(s.core.book.bookId, [step])
    ensures Once(Next(s, step).core, Next(s, step).log)
  {
    var c := s.core;
    assert forall f | f in FillsOf(step) :: f.bookId == c.book.bookId by { assert step in [step]; }
    hide Synced, OwnFills, OnFill, TagResolved, Reconcile, Advances, Once;
    match step
    case Submit(_, _, _, _, _) => SubmitKeepsOnce(s, step);
    case FillArrived(f) => FillKeepsOnce(c, s.log, f);
    case TagTrades(snap, trades) =>
      if snap.coid in c.orders { TagTradesKeepOnce(c, s.log, snap, trades); } else { assert s.log + [] == s.log; }
    case Reconciliation(trades, inSync) => ReconcileKeepsOnce(c, s.log, trades, inSync);
    case Restart => RestartKeepsOnce(s);
    case _ =>
      hide StepEffect;
      QuietStep(s, step);
      QuietKeepsOnce(c, s.log, StepEffect(s, step));
  }

  lemma QuietStep(s: State, step: Step)
    requires step.Placed? || step.Update? || step.TagLookup? || step.TagMissing?
    ensures
      IsQuietEffect(s.core, StepEffect(s, step))
  {
    hide PlaceReturned, OnUpdate, TagAbsent;
    match step
    case Placed(coid, outcome) => if coid in s.core.orders { PlacedQuiet(s.core, coid, outcome); }
    case Update(snap) => UpdateQuiet(s.core, snap);
    case TagLookup(coid, id) =>
    case TagMissing(coid, now, timeout) => if coid in s.core.orders { TagAbsentQuiet(s.core, coid, now, timeout); }
  }

  ghost predicate IsQuietEffect(c: Core, e: Effect) {
    SameFills(c, e.core) && e.core.book == c.book && forall ev | ev in e.events :: IsQuiet(ev) && !ev.TradeClosed?
  }

  lemma PlacedQuiet(c: Core, coid: string, outcome: Placement)
    requires coid in c.orders
    ensures IsQuietEffect(c, PlaceReturned(c, coid, outcome))
  {
    hide Advances;
  }

  lemma UpdateQuiet(c: Core, snap: Snapshot)
    ensures IsQuietEffect(c, OnUpdate(c, snap))
  {
    hide Advances;
  }

  lemma TagAbsentQuiet(c: Core, coid: string, now: int, timeout: int)
    requires coid in c.orders
    ensures IsQuietEffect(c, TagAbsent(c, coid, now, timeout))
  {
  }

  lemma RestartKeepsOnce(s: State)
    requires Once(s.core, s.log) && Synced(s)
    ensures Once(Next(s, Restart).core, Next(s, Restart).log)
  {
    hide Replay, Matches, Tally, FillIds;
    var r := Restore(s.core.book.bookId, s.core.book.startingCash, s.log);
    assert s.log + [] == s.log;
    forall k | k in r.orders ensures Matches(r.orders[k], Tally(s.log, k)) {
      assert Matches(s.core.orders[k], Tally(s.log, k));
      MatchesPlain(s.core.orders[k], r.orders[k], Tally(s.log, k));
    }
  }

  // ---- Every run --------------------------------------------------------------------------------

  /** Each order sent to the broker is known, and was sent once. */
  ghost predicate SentOnce(s: State) {
    && Distinct(s.placed)
    && (forall c | c in s.placed :: c in s.core.orders)
    && (forall c | c in s.inflight :: c in s.core.orders)
  }

  lemma StepSentOnce(s: State, step: Step)
    requires SentOnce(s) && Synced(s)
    ensures SentOnce(Next(s, step))
  {
    StepKeepsOrders(s, step);
    if step.Submit? {
      hide Reducible;
    } else {
      hide StepEffect;
    }
  }

  /** Orders are never forgotten. */
  lemma StepKeepsOrders(s: State, step: Step)
    requires Synced(s)
    ensures forall c | c in s.core.orders :: c in Next(s, step).core.orders
  {
    hide Advances;
    match step
    case Submit(_, _, _, _, _) => hide Reducible;
    case FillArrived(f) => hide OnFill;
    case TagTrades(snap, trades) => hide AdoptFills;
    case Reconciliation(trades, inSync) => hide AdoptFills;
    case Restart => hide Replay;
    case _ => hide Synced; QuietStep(s, step); hide StepEffect;
  }

  /**
   In every run with any number of re-deliveries, adoptions and restarts: each fill is recorded and
   booked once; every order's filled quantity is the sum of its distinct fills capped at its size,
   and without overfill its average price their weighted mean; no order is sent to the broker twice.
   */
  lemma {:induction false} ExactlyOnce(bookId: string, cash: real, steps: seq<Step>)
    requires OwnFills(bookId, steps)
    ensures var s := Run(NewState(bookId, cash), steps); Once(s.core, s.log) && SentOnce(s)
  {
    if steps != [] {
      hide Next, Once, SentOnce, Synced;
      var before, step := steps[..|steps| - 1], steps[|steps| - 1];
      assert forall st | st in before :: st in steps;
      ExactlyOnce(bookId, cash, before);
      RestartRefinement(bookId, cash, before);
      assert step in steps;
      var s := Run(NewState(bookId, cash), before);
      StepKeepsOnce(s, step);
      StepSentOnce(s, step);
    }
  }
}

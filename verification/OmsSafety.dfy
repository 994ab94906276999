/**
 No interleaving of entries, stops, targets, partials and flattens can open a short: what the live
 reduce-only orders may still sell is at most what the book holds, for every key, in every run.
 */
module OmsSafety {
  import opened Domain
  import opened Sums
  import opened PositionBook
  import opened BookProofs
  import opened Oms
  import opened OmsRestart

  // ---- The broker's contract ------------------------------------------------------------------

  /** A fill not seen before is for a live order, of its side and instrument, within what remains. */
  ghost predicate FairFill(c: Core, f: Fill) {
    f.fillId !in c.book.seen ==>
      && f.bookId == c.book.bookId
      && f.coid in c.orders
      && var o := c.orders[f.coid];
         && !o.status.IsTerminal()
         && f.quantity <= o.Remaining()
         && f.side == o.intent.side && f.instrument == o.intent.instrument
  }

  ghost predicate FairFills(c: Core, fills: seq<Fill>)
    decreases |fills|
  {
    fills != [] ==> FairFill(c, fills[0]) && FairFills(OnFill(c, fills[0]).core, fills[1..])
  }

  /** What the run assumes of a step: entries buy, fills are fair, a failed placement had no update before it. */
  ghost predicate Fair(s: State, step: Step) {
    match step
    case Submit(intent, _, _, _, _) => intent.ReduceOnly() || intent.side == Buy
    case Placed(coid, outcome) =>
      !outcome.Acked? && coid in s.core.orders ==> s.core.orders[coid].status == SUBMITTED
    case FillArrived(f) => FairFill(s.core, f)
    case TagTrades(_, trades) => FairFills(s.core, trades)
    case Reconciliation(trades, _) => FairFills(s.core, trades)
    case _ => true
  }

  ghost predicate FairRun(s: State, steps: seq<Step>) {
    steps == [] ||
    (FairRun(s, steps[..|steps| - 1]) && Fair(Run(s, steps[..|steps| - 1]), steps[|steps| - 1])
      && forall f | f in FillsOf(steps[|steps| - 1]) :: f.bookId == s.core.book.bookId)
  }

  // ---- The invariant ----------------------------------------------------------------------------

  ghost predicate LongOnly(o: Order) {
    && o.filledQty <= o.quantity
    && o.intent.side == if o.intent.ReduceOnly() then Sell else Buy
  }

  ghost predicate Covered(orders: map<string, Order>, book: BookState) {
    && book.Valid()
    && (forall k | k in orders :: LongOnly(orders[k]))
    && (forall key: Key :: Committed(orders, key) <= book.QuantityAt(key))
  }

  lemma CommittedNonNegative(orders: map<string, Order>, key: Key)
    requires forall k | k in orders :: LongOnly(orders[k])
    ensures 0 <= Committed(orders, key)
  {
    CountNonNegative(HeldBy(orders, key));
  }

  lemma CommittedUpdate(orders: map<string, Order>, coid: string, o: Order, key: Key)
    ensures Committed(orders[coid := o], key)
         == Committed(orders, key) + Held(o, key) - if coid in orders then Held(orders[coid], key) else 0
  {
    hide Held;
    CountUpdate(HeldBy(orders, key), coid, Held(o, key));
    assert HeldBy(orders[coid := o], key) == HeldBy(orders, key)[coid := Held(o, key)];
  }

  // ---- Steps without fills ------------------------------------------------------------------------

  /** Any change of status that does not bring an ended order back. */
  lemma StatusKeepsCovered(c: Core, coid: string, o: Order)
    requires Covered(c.orders, c.book) && coid in c.orders
    requires var was := c.orders[coid];
      && o.intent == was.intent && o.quantity == was.quantity && o.filledQty == was.filledQty
      && (was.status.IsTerminal() ==> o.status.IsTerminal())
    ensures Covered(Put(c, coid, o).orders, c.book)
  {
    hide Committed;
    var orders := Put(c, coid, o).orders;
    assert LongOnly(c.orders[coid]);
    forall key: Key ensures Committed(orders, key) <= c.book.QuantityAt(key) {
      CommittedUpdate(c.orders, coid, orders[coid], key);
    }
  }

  lemma AdvanceKeepsCovered(c: Core, coid: string, next: OrderStatus)
    requires Covered(c.orders, c.book) && coid in c.orders
    ensures Covered(Advance(c, coid, next).orders, c.book)
  {
    MovesAreLive(c.orders[coid].status, next);
    hide CanMove, Covered;
    if Advances(c.orders[coid].status, next) {
      StatusKeepsCovered(c, coid, c.orders[coid].(status := next));
    }
  }

  /** A routed quantity is positive and the least of the gate's, the request's and what may be reduced. */
  lemma RoutedIsLeast(c: Core, intent: Intent, coid: string, quantity: Option<int>, gate: Option<int>, now: int)
    requires Decide(c, intent, coid, quantity, gate, now).Route?
    ensures
      var q := Decide(c, intent, coid, quantity, gate, now).order.quantity;
      var asked := if quantity.Some? then quantity else if intent.quantity.Some? then Some(intent.quantity.value) else None;
      && gate.Some? && 0 < q <= gate.value && coid !in c.orders
      && (asked.Some? ==> q <= asked.value)
      && (intent.ReduceOnly() ==> q <= Reducible(c, intent))
      && (q == gate.value || (asked.Some? && q == asked.value) || (intent.ReduceOnly() && q == Reducible(c, intent)))
  {
    hide Reducible;
  }

  /** What is asked for: the argument, else the intent's own quantity. */
  function Asked(intent: Intent, quantity: Option<int>): Option<int> {
    if quantity.Some? then quantity else if intent.quantity.Some? then Some(intent.quantity.value) else None
  }

  /**
   When a submission becomes an order: if and only if it is this book's, a gate is installed and lets
   some through, its id is new, any request is positive, and a reduction has something to reduce. A
   request for more than that is cut, not refused. It is a duplicate, of the order held, if and only
   if its id is known; and a routed order is the intent's, sent now, with nothing filled.
   */
  lemma SubmittedExactly(c: Core, intent: Intent, coid: string, quantity: Option<int>, gate: Option<int>, now: int)
    ensures
      var d, asked := Decide(c, intent, coid, quantity, gate, now), Asked(intent, quantity);
      && (d.Route? <==>
            && intent.bookId == c.book.bookId && gate.Some? && coid !in c.orders && 0 < gate.value
            && (asked.Some? ==> 0 < asked.value) && (intent.ReduceOnly() ==> 0 < Reducible(c, intent)))
      && (d.Duplicate? <==> intent.bookId == c.book.bookId && gate.Some? && coid in c.orders)
      && (d.Duplicate? ==> d.order == c.orders[coid])
      && (d.Route? ==>
            && d.order.coid == coid && d.order.intent == intent && d.order.status == SUBMITTED
            && d.order.filledQty == 0 && d.order.avgFillPrice.None? && d.order.brokerOrderId.None?
            && d.order.submittedAt == now && d.order.version == 0)
  {
    hide Reducible;
  }

  /** What a reduction may take: nothing on the wrong side, else the position less what live orders hold of it. */
  lemma ReducibleIs(c: Core, intent: Intent)
    ensures
      var position, held := c.book.QuantityAt(intent.PositionKey()), Committed(c.orders, intent.PositionKey());
      && 0 <= Reducible(c, intent)
      && (intent.side == Sell && 0 < position && held < position ==> Reducible(c, intent) == position - held)
      && (intent.side == Buy && position < 0 && held < -position ==> Reducible(c, intent) == -position - held)
      && (0 < Reducible(c, intent) ==>
            if intent.side == Sell then 0 < position && held < position else position < 0 && held < -position)
  {
  }

  lemma SubmitKeepsCovered(s: State, step: Step)
    requires Covered(s.core.orders, s.core.book) && step.Submit? && Fair(s, step)
    ensures Covered(Next(s, step).core.orders, Next(s, step).core.book)
  {
    var c := s.core;
    var d := Decide(c, step.intent, step.coid, step.quantity, step.gate, step.now);
    if d.Route? {
      hide Committed;
      var orders := c.orders[step.coid := d.order];
      CommittedNonNegative(c.orders, step.intent.PositionKey());
      assert step.intent.ReduceOnly() ==> d.order.quantity <= Reducible(c, step.intent);
      forall key: Key ensures Committed(orders, key) <= c.book.QuantityAt(key) {
        CommittedUpdate(c.orders, step.coid, d.order, key);
      }
    }
  }

  lemma PlacedKeepsCovered(s: State, step: Step)
    requires Covered(s.core.orders, s.core.book) && step.Placed? && Fair(s, step)
    ensures Covered(Next(s, step).core.orders, Next(s, step).core.book)
  {
    hide Covered, Advance;
    var c, coid := s.core, step.coid;
    if coid in s.inflight && coid in c.orders {
      var o := c.orders[coid];
      match step.outcome
      case OutcomeUnknown => StatusKeepsCovered(c, coid, o.(status := UNKNOWN));
      case NotPlaced(_) => StatusKeepsCovered(c, coid, o.(status := REJECTED));
      case Acked(id, status) =>
        StatusKeepsCovered(c, coid, o.(brokerOrderId := Some(id)));
        AdvanceKeepsCovered(Put(c, coid, o.(brokerOrderId := Some(id))), coid, status);
        AdvanceKeepsBook(Put(c, coid, o.(brokerOrderId := Some(id))), coid, status);
    }
  }

  lemma AdvanceKeepsBook(c: Core, coid: string, next: OrderStatus)
    requires coid in c.orders
    ensures Advance(c, coid, next).book == c.book
  {
  }

  lemma UpdateKeepsCovered(c: Core, snap: Snapshot)
    requires Covered(c.orders, c.book)
    ensures Covered(OnUpdate(c, snap).core.orders, c.book) && OnUpdate(c, snap).core.book == c.book
  {
    hide Covered, Advances;
    if snap.coid in c.orders {
      var o := c.orders[snap.coid];
      var o1 := o.(brokerOrderId := Some(snap.brokerOrderId));
      StatusKeepsCovered(c, snap.coid, o1);
      AdvanceKeepsCovered(c, snap.coid, snap.status);
      AdvanceKeepsCovered(Put(c, snap.coid, o1), snap.coid, snap.status);
    }
  }

  lemma TagAbsentKeepsCovered(c: Core, coid: string, now: int, timeout: int)
    requires Covered(c.orders, c.book) && coid in c.orders
    ensures Covered(TagAbsent(c, coid, now, timeout).core.orders, c.book)
    ensures TagAbsent(c, coid, now, timeout).core.book == c.book
  {
    hide Covered;
    StatusKeepsCovered(c, coid, c.orders[coid].(status := REJECTED));
  }

  // ---- Fills --------------------------------------------------------------------------------------

  lemma BookedQuantity(b: BookState, f: Fill, product: Product, strategy: string, reason: string, key: Key)
    requires b.Valid() && f.bookId == b.bookId && f.fillId !in b.seen
    ensures
      var b' := ApplyFill(b, f, product, strategy, reason).0;
      && b'.Valid()
      && b'.QuantityAt(key) == b.QuantityAt(key)
           + if key == Key(f.instrument, product) then f.side.Sign() * f.quantity else 0
  {
    var l := b.LedgerAt(Key(f.instrument, product));
    FillKeepsWorth(l, f, product, strategy, reason);
    hide ApplyToLedger, PositionOf, Worth;
  }

  lemma FillKeepsCovered(c: Core, f: Fill)
    requires Covered(c.orders, c.book) && FairFill(c, f)
    ensures Covered(OnFill(c, f).core.orders, OnFill(c, f).core.book)
  {
    if f.fillId !in c.book.seen {
      hide Committed, ApplyToLedger, PositionOf, AvgAfter, Recordable, TradeEvents;
      var o := c.orders[f.coid];
      assert LongOnly(o);
      var c' := OnFill(c, f).core;
      var o' := c'.orders[f.coid];
      BookedQuantity(c.book, f, o.intent.product, o.intent.strategy, o.intent.reason, o.intent.PositionKey());
      hide ApplyFill;
      assert c'.book == BookFill(c.book, f, o.intent).0;
      forall key: Key ensures Committed(c'.orders, key) <= c'.book.QuantityAt(key) {
        CommittedUpdate(c.orders, f.coid, o', key);
        BookedQuantity(c.book, f, o.intent.product, o.intent.strategy, o.intent.reason, key);
      }
    }
  }

  lemma {:induction false} AdoptKeepsCovered(c: Core, fills: seq<Fill>)
    requires Covered(c.orders, c.book) && FairFills(c, fills)
    ensures Covered(AdoptFills(c, fills).core.orders, AdoptFills(c, fills).core.book)
    decreases |fills|
  {
    if fills != [] {
      hide Covered, OnFill;
      FillKeepsCovered(c, fills[0]);
      AdoptKeepsCovered(OnFill(c, fills[0]).core, fills[1..]);
    }
  }

  lemma TagTradesKeepCovered(c: Core, snap: Snapshot, trades: seq<Fill>)
    requires Covered(c.orders, c.book) && FairFills(c, trades) && snap.coid in c.orders
    ensures Covered(TagResolved(c, snap, trades).core.orders, TagResolved(c, snap, trades).core.book)
  {
    hide Covered, AdoptFills, Advances;
    AdoptKeepsCovered(c, trades);
    var adopted := AdoptFills(c, trades);
    AdvanceKeepsCovered(adopted.core, snap.coid, snap.status);
  }

  // ---- Every run ------------------------------------------------------------------------------------

  lemma RestartKeepsCovered(a: Core, b: Core)
    requires Covered(a.orders, a.book) && Same(a, b)
    ensures Covered(b.orders, b.book)
  {
    forall k | k in b.orders ensures LongOnly(b.orders[k]) {
      assert Plain(a.orders[k]) == Plain(b.orders[k]) && LongOnly(a.orders[k]);
    }
    forall key: Key ensures Committed(b.orders, key) <= b.book.QuantityAt(key) {
      forall k | k in a.orders ensures Held(a.orders[k], key) == Held(b.orders[k], key) {
        assert Plain(a.orders[k]) == Plain(b.orders[k]);
      }
      assert HeldBy(a.orders, key) == HeldBy(b.orders, key);
      assert Committed(a.orders, key) <= a.book.QuantityAt(key);
    }
  }

  lemma StepKeepsCovered(s: State, step: Step)
    requires Covered(s.core.orders, s.core.book) && Fair(s, step) && Synced(s)
    ensures Covered(Next(s, step).core.orders, Next(s, step).core.book)
  {
    hide Covered;
    var c := s.core;
    match step
    case Submit(_, _, _, _, _) => SubmitKeepsCovered(s, step);
    case Placed(_, _) => PlacedKeepsCovered(s, step);
    case Update(snap) => hide OnUpdate, Synced; UpdateKeepsCovered(c, snap);
    case FillArrived(f) => hide OnFill, Synced; FillKeepsCovered(c, f);
    case TagLookup(coid, id) =>
      hide Synced;
      if coid in c.orders { StatusKeepsCovered(c, coid, c.orders[coid].(brokerOrderId := Some(id))); }
    case TagTrades(snap, trades) => hide TagResolved, Synced; if snap.coid in c.orders { TagTradesKeepCovered(c, snap, trades); }
    case TagMissing(coid, now, timeout) => hide TagAbsent, Synced; if coid in c.orders { TagAbsentKeepsCovered(c, coid, now, timeout); }
    case Reconciliation(trades, inSync) => hide AdoptFills, Synced; AdoptKeepsCovered(c, trades);
    case Restart => hide Replay; RestartKeepsCovered(c, Restore(c.book.bookId, c.book.startingCash, s.log));
  }

  lemma {:induction false} FairRunCovered(bookId: string, cash: real, steps: seq<Step>)
    requires FairRun(NewState(bookId, cash), steps)
    ensures
      var s := Run(NewState(bookId, cash), steps);
      Covered(s.core.orders, s.core.book) && Synced(s) && s.core.book.bookId == bookId
  {
    if steps == [] {
      forall key: Key ensures Committed(map[], key) == 0 {
        assert HeldBy(map[], key) == map[];
      }
    } else {
      hide Covered, Synced, Next;
      var before, step := steps[..|steps| - 1], steps[|steps| - 1];
      FairRunCovered(bookId, cash, before);
      var s := Run(NewState(bookId, cash), before);
      StepKeepsCovered(s, step);
      StepSynced(s, step);
      StepKeepsBookId(s, step);
    }
  }

  /**
   In every fair run, restarts included, for every instrument and product the live reduce-only
   orders together hold at most the position, and the position is never short.
   */
  lemma NeverShort(bookId: string, cash: real, steps: seq<Step>, key: Key)
    requires FairRun(NewState(bookId, cash), steps)
    ensures
      var s := Run(NewState(bookId, cash), steps);
      0 <= Committed(s.core.orders, key) <= s.core.book.QuantityAt(key)
  {
    FairRunCovered(bookId, cash, steps);
    CommittedNonNegative(Run(NewState(bookId, cash), steps).core.orders, key);
  }

  // ---- Why fairness is needed -----------------------------------------------------------------------

  /**
   An ended order works again after a fill if and only if the fill is new, names it, and leaves some
   of it to fill, whichever book the fill is for: the forced advance asks nothing else.
   */
  lemma EndedWorksAgainExactly(c: Core, f: Fill, id: string)
    requires id in c.orders && c.orders[id].status.IsTerminal()
    ensures !OnFill(c, f).core.orders[id].status.IsTerminal() <==>
      f.fillId !in c.book.seen && f.coid == id && f.quantity < c.orders[id].Remaining()
  {
    hide ApplyToLedger, PositionOf, AvgAfter, Recordable, TradeEvents;
  }

  /** The position a fill is booked to. */
  function FillKey(c: Core, f: Fill): Key {
    Key(f.instrument, if f.coid in c.orders then c.orders[f.coid].intent.product else CNC)
  }

  /** What the named order holds of the key once filled, less what it held: an ended one is revived. */
  function HoldsMore(c: Core, f: Fill, key: Key): int {
    if f.coid !in c.orders then 0
    else
      var o := c.orders[f.coid];
      if !o.intent.ReduceOnly() || o.intent.PositionKey() != key then 0
      else Max(0, o.Remaining() - f.quantity) - if o.status.IsTerminal() then 0 else o.Remaining()
  }

  /** What the book gains of the key: nothing for another book's fill. */
  function BookGains(c: Core, f: Fill, key: Key): int {
    if f.bookId != c.book.bookId || key != FillKey(c, f) then 0 else f.side.Sign() * f.quantity
  }

  /** What no live order holds of the key. */
  ghost function Slack(c: Core, key: Key): int { c.book.QuantityAt(key) - Committed(c.orders, key) }

  ghost predicate FitsSlack(c: Core, f: Fill, key: Key) { HoldsMore(c, f, key) - BookGains(c, f, key) <= Slack(c, key) }

  /**
   The exact limit of the guarantee: any new fill at all, late, too large, stray, for another book, of
   another side or instrument than its order, leaves the live reduce-only orders covered if and only
   if what it claims fits in what no order holds, of the position it is booked to and of its order's.
   */
  lemma FillCoveredExactly(c: Core, f: Fill)
    requires Covered(c.orders, c.book) && f.fillId !in c.book.seen
    ensures Covered(OnFill(c, f).core.orders, OnFill(c, f).core.book) <==>
      && FitsSlack(c, f, FillKey(c, f))
      && (f.coid in c.orders ==> FitsSlack(c, f, c.orders[f.coid].intent.PositionKey()))
  {
    var c' := OnFill(c, f).core;
    FillMoves(c, f);
    hide OnFill, Committed;
    forall k: Key ensures Slack(c', k) == Slack(c, k) + BookGains(c, f, k) - HoldsMore(c, f, k) {
      FillShifts(c, f, k);
    }
    SlackIsCover(c);
    SlackIsCover(c');
    hide Slack, LongOnly, Covered;
    assert forall k: Key :: 0 <= Slack(c', k) <==> FitsSlack(c, f, k);
    forall k: Key | k != FillKey(c, f) && (f.coid in c.orders ==> k != c.orders[f.coid].intent.PositionKey())
      ensures 0 <= Slack(c', k)
    {
      assert 0 <= Slack(c, k);
    }
  }

  /** Covered, key by key: nothing is claimed that is not there. */
  lemma SlackIsCover(c: Core)
    requires c.book.Valid() && forall k | k in c.orders :: LongOnly(c.orders[k])
    ensures Covered(c.orders, c.book) <==> forall k: Key :: 0 <= Slack(c, k)
  {
    hide Committed, LongOnly;
    assert forall k: Key :: Committed(c.orders, k) <= c.book.QuantityAt(k) <==> 0 <= Slack(c, k);
  }

  /** What stays true of the orders and the book after any new fill. */
  lemma FillMoves(c: Core, f: Fill)
    requires Covered(c.orders, c.book) && f.fillId !in c.book.seen
    ensures
      var c' := OnFill(c, f).core;
      && c'.book.Valid() && (forall k | k in c'.orders :: LongOnly(c'.orders[k]))
      && c'.book == (if f.coid in c.orders then BookFill(c.book, f, c.orders[f.coid].intent).0 else BookStray(c.book, f).0)
      && c'.orders == (if f.coid in c.orders then PutFilled(c, c.orders[f.coid], f).orders else c.orders)
  {
    hide Committed, ApplyToLedger, PositionOf, AvgAfter, Recordable, TradeEvents;
    if f.coid in c.orders {
      var i := c.orders[f.coid].intent;
      assert LongOnly(c.orders[f.coid]);
      if f.bookId == c.book.bookId { BookedQuantity(c.book, f, i.product, i.strategy, i.reason, FillKey(c, f)); }
    } else if f.bookId == c.book.bookId {
      BookedQuantity(c.book, f, CNC, "unknown", "", FillKey(c, f));
    }
  }

  /** How far a fill moves the slack, key by key. */
  lemma FillShifts(c: Core, f: Fill, k: Key)
    requires Covered(c.orders, c.book) && f.fillId !in c.book.seen
    ensures Slack(OnFill(c, f).core, k) == Slack(c, k) + BookGains(c, f, k) - HoldsMore(c, f, k)
  {
    FillMoves(c, f);
    BookShifts(c, f, k);
    hide OnFill, Committed, AvgAfter, ApplyFill, Held;
    if f.coid in c.orders {
      var o := c.orders[f.coid];
      CommittedUpdate(c.orders, f.coid, PutFilled(c, o, f).orders[f.coid], k);
      HeldShifts(c, o, f, k);
    }
  }

  lemma BookShifts(c: Core, f: Fill, k: Key)
    requires c.book.Valid() && f.fillId !in c.book.seen
    ensures
      var b := if f.coid in c.orders then BookFill(c.book, f, c.orders[f.coid].intent).0 else BookStray(c.book, f).0;
      b.QuantityAt(k) == c.book.QuantityAt(k) + BookGains(c, f, k)
  {
    if f.bookId == c.book.bookId {
      if f.coid in c.orders {
        var i := c.orders[f.coid].intent;
        BookedQuantity(c.book, f, i.product, i.strategy, i.reason, k);
      } else {
        BookedQuantity(c.book, f, CNC, "unknown", "", k);
      }
      hide ApplyFill;
    }
  }

  lemma HeldShifts(c: Core, o: Order, f: Fill, k: Key)
    requires f.coid in c.orders && c.orders[f.coid] == o
    ensures Held(PutFilled(c, o, f).orders[f.coid], k) - Held(o, k) == HoldsMore(c, f, k)
  {
    hide AvgAfter;
  }

  /**
   The other half of the broker's contract: an answer to a placement that says the outcome is unknown
   leaves the cover if and only if the order had not ended, reduces nothing, or still fits in what no
   order holds; any other answer always leaves it.
   */
  lemma PlacementCoveredExactly(c: Core, coid: string, outcome: Placement)
    requires Covered(c.orders, c.book) && coid in c.orders
    ensures
      var o, c' := c.orders[coid], PlaceReturned(c, coid, outcome).core;
      Covered(c'.orders, c'.book) <==>
        || outcome != OutcomeUnknown || !o.status.IsTerminal() || !o.intent.ReduceOnly()
        || o.Remaining() <= Slack(c, o.intent.PositionKey())
  {
    var o := c.orders[coid];
    match outcome
    case NotPlaced(_) => StatusKeepsCovered(c, coid, o.(status := REJECTED));
    case Acked(id, status) =>
      hide Covered, Advance;
      StatusKeepsCovered(c, coid, o.(brokerOrderId := Some(id)));
      AdvanceKeepsCovered(Put(c, coid, o.(brokerOrderId := Some(id))), coid, status);
      AdvanceKeepsBook(Put(c, coid, o.(brokerOrderId := Some(id))), coid, status);
    case OutcomeUnknown =>
      if o.status.IsTerminal() { RevivedCovered(c, coid); } else { StatusKeepsCovered(c, coid, o.(status := UNKNOWN)); }
  }

  lemma RevivedCovered(c: Core, coid: string)
    requires Covered(c.orders, c.book) && coid in c.orders && c.orders[coid].status.IsTerminal()
    ensures
      var o := c.orders[coid];
      Covered(Put(c, coid, o.(status := UNKNOWN)).orders, c.book) <==>
        (o.intent.ReduceOnly() ==> o.Remaining() <= Slack(c, o.intent.PositionKey()))
  {
    hide Committed;
    var o := c.orders[coid];
    var orders := Put(c, coid, o.(status := UNKNOWN)).orders;
    assert LongOnly(o);
    forall k: Key ensures Committed(orders, k) == Committed(c.orders, k) + Held(orders[coid], k) {
      CommittedUpdate(c.orders, coid, orders[coid], k);
    }
    assert o.intent.ReduceOnly() ==> Held(orders[coid], o.intent.PositionKey()) == o.Remaining();
  }

  /**
   An order whose outcome is unknown is given up only on the second look that does not find it, and
   only once the timeout has passed; the first look never ends it.
   */
  lemma AbsentTwice(c: Core, coid: string, now: int, later: int, timeout: int)
    requires coid in c.orders && c.orders[coid].status == UNKNOWN
    requires coid in c.unknownChecks ==> c.unknownChecks[coid] == 0
    ensures
      var first := TagAbsent(c, coid, now, timeout);
      var second := TagAbsent(first.core, coid, later, timeout);
      && first.core.orders == c.orders && first.events == []
      && (second.core.orders[coid].status == REJECTED <==> timeout <= later - c.orders[coid].submittedAt)
      && (second.core.orders[coid].status == REJECTED || second.core.orders == c.orders)
  {
  }
}

/** Orders only move forward along the state machine, and what has ended stays ended, in every fair run. */
module OmsForward {
  import opened Domain
  import opened PositionBook
  import opened Oms
  import opened OmsRestart
  import OmsOnce
  import opened OmsSafety

  /** How far along its life an order is; a pending cancel and a partial fill may alternate. */
  function Phase(s: OrderStatus): nat {
    match s
    case PENDING_NEW => 0
    case SUBMITTED => 1
    case UNKNOWN => 2
    case PENDING_MODIFY => 2
    case TRIGGER_PENDING => 3
    case OPEN => 4
    case PARTIALLY_FILLED => 5
    case PENDING_CANCEL => 5
    case _ => 6
  }

  /** The table never moves an order back, and stays in a phase only between partial fill and pending cancel. */
  lemma TableMovesForward(a: OrderStatus, b: OrderStatus)
    ensures CanMove(a, b) ==> Phase(a) < Phase(b) || Phase(a) == Phase(b) == 5
    ensures a.IsTerminal() <==> Phase(a) == 6
  {
  }

  /** Every order is still there, with its intent and size, no earlier in its life. */
  ghost predicate Forward(a: map<string, Order>, b: map<string, Order>) {
    forall c | c in a ::
      && c in b && b[c].intent == a[c].intent && b[c].quantity == a[c].quantity
      && Phase(a[c].status) <= Phase(b[c].status)
  }

  lemma ForwardChain(a: map<string, Order>, b: map<string, Order>, c: map<string, Order>)
    requires Forward(a, b) && Forward(b, c)
    ensures Forward(a, c)
  {
  }

  lemma PutForward(c: Core, coid: string, o: Order)
    requires coid in c.orders && o.intent == c.orders[coid].intent && o.quantity == c.orders[coid].quantity
    requires Phase(c.orders[coid].status) <= Phase(o.status)
    ensures Forward(c.orders, Put(c, coid, o).orders)
  {
  }

  lemma FairFillForward(c: Core, f: Fill)
    requires FairFill(c, f)
    ensures Forward(c.orders, OnFill(c, f).core.orders)
  {
    hide ApplyFill, AvgAfter, Forward, TradeEvents, Recordable;
    SameForward(c.orders);
    if f.fillId !in c.book.seen {
      var o := c.orders[f.coid];
      TableMovesForward(o.status, FILLED);
      var o' := OnFill(c, f).core.orders[f.coid];
      assert OnFill(c, f).core.orders == Put(c, f.coid, o'.(version := o'.version - 1)).orders;
      PutForward(c, f.coid, o'.(version := o'.version - 1));
    }
  }

  lemma {:induction false} FairFillsForward(c: Core, fills: seq<Fill>)
    requires FairFills(c, fills)
    ensures Forward(c.orders, AdoptFills(c, fills).core.orders)
    decreases |fills|
  {
    hide OnFill, FairFill;
    if fills != [] {
      FairFillForward(c, fills[0]);
      FairFillsForward(OnFill(c, fills[0]).core, fills[1..]);
    }
  }

  lemma AdvanceForward(c: Core, coid: string, next: OrderStatus)
    requires coid in c.orders
    ensures Forward(c.orders, Advance(c, coid, next).orders)
  {
    TableMovesForward(c.orders[coid].status, next);
    hide CanMove;
  }

  lemma PlacedForward(c: Core, coid: string, outcome: Placement)
    requires coid in c.orders && (!outcome.Acked? ==> c.orders[coid].status == SUBMITTED)
    ensures Forward(c.orders, PlaceReturned(c, coid, outcome).core.orders)
  {
    hide Advance;
    if outcome.Acked? {
      var c1 := Put(c, coid, c.orders[coid].(brokerOrderId := Some(outcome.brokerOrderId)));
      AdvanceForward(c1, coid, outcome.status);
      ForwardChain(c.orders, c1.orders, Advance(c1, coid, outcome.status).orders);
    }
  }

  lemma UpdateForward(c: Core, snap: Snapshot)
    ensures Forward(c.orders, OnUpdate(c, snap).core.orders)
  {
    hide Advance, Advances;
    if snap.coid in c.orders {
      var c1 := Put(c, snap.coid, c.orders[snap.coid].(brokerOrderId := Some(snap.brokerOrderId)));
      AdvanceForward(c, snap.coid, snap.status);
      AdvanceForward(c1, snap.coid, snap.status);
      ForwardChain(c.orders, c1.orders, Advance(c1, snap.coid, snap.status).orders);
    }
  }

  lemma ResolvedForward(c: Core, snap: Snapshot, trades: seq<Fill>)
    requires FairFills(c, trades) && snap.coid in c.orders
    ensures Forward(c.orders, TagResolved(c, snap, trades).core.orders)
  {
    hide AdoptFills, Advance, Without, Forward;
    FairFillsForward(c, trades);
    var adopted := AdoptFills(c, trades);
    AdvanceForward(adopted.core, snap.coid, snap.status);
    ForwardChain(c.orders, adopted.core.orders, Advance(adopted.core, snap.coid, snap.status).orders);
  }

  lemma RestartForward(a: Core, b: Core)
    requires Same(a, b)
    ensures Forward(a.orders, b.orders)
  {
    forall c | c in a.orders ensures Plain(b.orders[c]) == Plain(a.orders[c]) {
    }
  }

  lemma SameForward(a: map<string, Order>)
    ensures Forward(a, a)
  {
  }

  lemma SubmitForward(s: State, step: Step)
    requires step.Submit?
    ensures Forward(s.core.orders, Next(s, step).core.orders)
  {
    hide Reducible;
  }

  lemma StepForward(s: State, step: Step)
    requires Fair(s, step) && Synced(s)
    ensures Forward(s.core.orders, Next(s, step).core.orders)
  {
    var c := s.core;
    SameForward(c.orders);
    hide Forward, AdoptFills, OnFill, FairFill, FairFills, OnUpdate, TagResolved, PlaceReturned, Decide;
    match step
    case Submit(_, _, _, _, _) => SubmitForward(s, step);
    case Placed(coid, outcome) => hide Synced; if coid in c.orders { PlacedForward(c, coid, outcome); }
    case Update(snap) => hide Synced; UpdateForward(c, snap);
    case FillArrived(f) => hide Synced; FairFillForward(c, f);
    case TagTrades(snap, trades) => hide Synced; if snap.coid in c.orders { ResolvedForward(c, snap, trades); }
    case Reconciliation(trades, _) => hide Synced; FairFillsForward(c, trades);
    case TagMissing(coid, _, _) =>
      hide Synced, Without;
      if coid in c.orders { PutForward(c, coid, c.orders[coid].(status := REJECTED)); }
    case TagLookup(coid, id) =>
      hide Synced;
      if coid in c.orders { PutForward(c, coid, c.orders[coid].(brokerOrderId := Some(id))); }
    case Restart => hide Replay; RestartForward(c, Restore(c.book.bookId, c.book.startingCash, s.log));
  }

  /**
   Between any two moments of a fair run, restarts included: no order is lost or resized, none moves
   back along the state machine, and an order that has ended never works again.
   */
  lemma {:induction false} ForwardOnly(bookId: string, cash: real, steps: seq<Step>, k: nat)
    requires FairRun(NewState(bookId, cash), steps) && k <= |steps|
    ensures Forward(Run(NewState(bookId, cash), steps[..k]).core.orders, Run(NewState(bookId, cash), steps).core.orders)
  {
    if k == |steps| {
      assert steps[..k] == steps;
    } else {
      hide Next, Forward, Fair;
      var init := steps[..|steps| - 1];
      assert init[..k] == steps[..k];
      ForwardOnly(bookId, cash, init, k);
      FairRunCovered(bookId, cash, init);
      StepForward(Run(NewState(bookId, cash), init), steps[|steps| - 1]);
      ForwardChain(Run(NewState(bookId, cash), steps[..k]).core.orders, Run(NewState(bookId, cash), init).core.orders,
                   Run(NewState(bookId, cash), steps).core.orders);
    }
  }

  /** After a fill its order has the broker id the fill carries, or the one it had: enough to cancel the rest. */
  lemma FillTellsBrokerId(c: Core, f: Fill)
    requires f.fillId !in c.book.seen && f.coid in c.orders
    ensures
      var was, now := c.orders[f.coid].brokerOrderId, OnFill(c, f).core.orders[f.coid].brokerOrderId;
      && (f.brokerOrderId.Some? && f.brokerOrderId.value != "" ==> now == f.brokerOrderId)
      && (f.brokerOrderId.None? || f.brokerOrderId.value == "" ==> now == was)
  {
    hide ApplyToLedger, PositionOf, AvgAfter, Recordable, TradeEvents;
  }

  /** Until a restart no order loses its broker id. */
  ghost predicate KnownStay(a: map<string, Order>, b: map<string, Order>) {
    forall k | k in a && k in b && a[k].brokerOrderId.Some? :: b[k].brokerOrderId.Some?
  }

  lemma FillKeepsKnown(c: Core, f: Fill)
    ensures KnownStay(c.orders, OnFill(c, f).core.orders)
  {
    hide ApplyToLedger, PositionOf, AvgAfter, Recordable, TradeEvents;
  }

  lemma {:induction false} AdoptKeepsKnown(c: Core, fills: seq<Fill>)
    ensures KnownStay(c.orders, AdoptFills(c, fills).core.orders)
    decreases |fills|
  {
    if fills != [] {
      FillKeepsKnown(c, fills[0]);
      AdoptKeepsKnown(OnFill(c, fills[0]).core, fills[1..]);
      hide OnFill;
    }
  }

  lemma BrokerIdStays(s: State, step: Step)
    requires !step.Restart?
    ensures KnownStay(s.core.orders, Next(s, step).core.orders)
  {
    var c := s.core;
    hide AdoptFills, Advances, Without, OnFill;
    match step
    case FillArrived(f) => FillKeepsKnown(c, f);
    case TagTrades(snap, trades) =>
      AdoptKeepsKnown(c, trades);
      if snap.coid in c.orders { ResolveKeepsKnown(c, snap, trades); }
    case Reconciliation(trades, _) => AdoptKeepsKnown(c, trades);
    case Submit(_, _, _, _, _) => hide Reducible;
    case _ =>
  }

  lemma ResolveKeepsKnown(c: Core, snap: Snapshot, trades: seq<Fill>)
    requires snap.coid in c.orders && KnownStay(c.orders, AdoptFills(c, trades).core.orders)
    ensures KnownStay(c.orders, TagResolved(c, snap, trades).core.orders)
  {
    hide AdoptFills, Advances, Without;
  }

  /** Which orders a step adds. */
  lemma NewOrders(s: State, step: Step)
    requires Synced(s)
    ensures forall c | c in Next(s, step).core.orders && c !in s.core.orders ::
              step.Submit? && c == step.coid && Next(s, step).core.orders[c].intent == step.intent
  {
    hide Advances, Without;
    match step
    case Submit(_, _, _, _, _) => hide Reducible, Synced;
    case FillArrived(f) => hide OnFill, Synced;
    case TagTrades(_, _) => hide AdoptFills, Synced;
    case Reconciliation(_, _) => hide AdoptFills, Synced;
    case Restart => hide Replay;
    case _ => hide Synced; OmsOnce.QuietStep(s, step); hide StepEffect;
  }
}

/**
 When every closed piece gets its TradeClosed event: in a fair run, exactly when each fill, looked at
 before it is booked, leaves its last piece a charge that is not negative.
 */
module TradeRecord {
  import opened Domain
  import opened Sums
  import opened PositionBook
  import opened BookCharges
  import opened Oms
  import opened OmsRestart
  import opened OmsSafety
  import opened Pnl

  /** An open side has shares. */
  lemma LotsHaveShares(lots: seq<Lot>)
    requires lots != []
    ensures 0 < Total(lots).quantity
  {
    TotalNonNegative(lots[1..]);
  }

  /** Nothing is sold that is not held, so a fair fill never flips a position. */
  lemma FairFillNeverFlips(c: Core, f: Fill)
    requires Covered(c.orders, c.book) && FairFill(c, f) && f.fillId !in c.book.seen
    ensures !Flips(LedgerOf(c, f), f)
  {
    var o, l := c.orders[f.coid], LedgerOf(c, f);
    var key := o.intent.PositionKey();
    assert LongOnly(o) && Key(f.instrument, o.intent.product) == key;
    assert Committed(c.orders, key) <= c.book.QuantityAt(key) == l.Quantity();
    CountNonNegative(HeldBy(c.orders, key));
    assert HeldBy(c.orders, key)[f.coid] == Held(o, key);
    if Against(l, f) {
      LotsHaveShares(l.lots);
    }
  }

  ghost predicate UnseenGridded(c: Core, f: Fill) { f.fillId !in c.book.seen ==> OnGrid(f.charges) }

  lemma FairFillRecordedExactly(c: Core, f: Fill)
    requires Covered(c.orders, c.book) && GriddedBook(c.book) && FairFill(c, f) && UnseenGridded(c, f)
    ensures Recorded(c, f) <==> Chargeable(c, f)
    ensures GriddedBook(OnFill(c, f).core.book)
  {
    if f.fillId !in c.book.seen {
      FairFillNeverFlips(c, f);
      FillRaisesExactly(c, f);
      var intent := c.orders[f.coid].intent;
      BookKeepsGridded(c.book, f, intent.product, intent.strategy, intent.reason);
      BookAfterFill(c, f);
      hide OnFill, ApplyFill, GriddedBook, Covered, Flips, LastCovered, OnGrid;
    }
  }

  ghost predicate GriddedFills(c: Core, fills: seq<Fill>)
    decreases |fills|
  {
    fills != [] ==> UnseenGridded(c, fills[0]) && GriddedFills(OnFill(c, fills[0]).core, fills[1..])
  }

  ghost predicate GriddedRun(s: State, steps: seq<Step>) {
    steps != [] ==>
      && GriddedRun(s, steps[..|steps| - 1])
      && GriddedFills(Run(s, steps[..|steps| - 1]).core, FillsOf(steps[|steps| - 1]))
  }

  lemma {:induction false} FairFillsRecordedExactly(c: Core, fills: seq<Fill>)
    requires Covered(c.orders, c.book) && GriddedBook(c.book) && FairFills(c, fills) && GriddedFills(c, fills)
    ensures RecordedAll(c, fills) <==> ChargeableAll(c, fills)
    ensures GriddedBook(AdoptFills(c, fills).core.book)
    decreases |fills|
  {
    hide Covered, GriddedBook, OnFill, Recorded, Chargeable, FairFill, UnseenGridded;
    if fills != [] {
      FairFillRecordedExactly(c, fills[0]);
      FillKeepsCovered(c, fills[0]);
      FairFillsRecordedExactly(OnFill(c, fills[0]).core, fills[1..]);
    }
  }

  lemma FairStepFills(s: State, step: Step)
    requires Fair(s, step)
    ensures FairFills(s.core, FillsOf(step))
  {
    if step.FillArrived? {
      assert [step.fill][1..] == [];
      assert FairFills(OnFill(s.core, step.fill).core, []);
    }
  }

  /**
   In every fair run whose charges are on the grid, restarts included: every piece every fill closes
   is recorded by a TradeClosed event if and only if each fill was chargeable when it arrived.
   */
  lemma {:induction false} RecordedExactly(bookId: string, cash: real, steps: seq<Step>)
    requires FairRun(NewState(bookId, cash), steps) && GriddedRun(NewState(bookId, cash), steps)
    ensures RecordedRun(NewState(bookId, cash), steps) <==> ChargeableRun(NewState(bookId, cash), steps)
    ensures GriddedBook(Run(NewState(bookId, cash), steps).core.book)
  {
    if steps != [] {
      hide Next, Synced, GriddedBook, Covered, Fair, FairFills, GriddedFills, RecordedAll, ChargeableAll;
      var before, step := steps[..|steps| - 1], steps[|steps| - 1];
      RecordedExactly(bookId, cash, before);
      FairRunCovered(bookId, cash, before);
      var s := Run(NewState(bookId, cash), before);
      FairStepFills(s, step);
      StepBook(s, step);
      FairFillsRecordedExactly(s.core, FillsOf(step));
    }
  }

  lemma {:induction false} FairRunOwn(bookId: string, cash: real, steps: seq<Step>)
    requires FairRun(NewState(bookId, cash), steps)
    ensures OwnFills(bookId, steps)
  {
    if steps != [] {
      hide Next, Fair;
      FairRunOwn(bookId, cash, steps[..|steps| - 1]);
      assert forall st | st in steps :: st in steps[..|steps| - 1] || st == steps[|steps| - 1];
    }
  }
}

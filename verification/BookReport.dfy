/**
 What the book tells the outside about a fill: the position it reports and the pieces it says were
 closed, stated without the book's own arithmetic.
 */
module BookReport {
  import opened Domain
  import opened PositionBook
  import opened BookProofs
  import opened BookCharges
  import opened Pnl

  // ---- The reported position -----------------------------------------------------------------------

  /** What the lots gain at a mark, each at its own price, charges aside. */
  function LotGains(lots: seq<Lot>, direction: int, mark: real): real {
    if lots == [] then 0.0 else
      direction as real * ((mark - lots[0].price) * lots[0].quantity as real) + LotGains(lots[1..], direction, mark)
  }

  lemma {:induction false} GainsTotal(lots: seq<Lot>, direction: int, mark: real)
    requires direction in {-1, 0, 1}
    ensures LotGains(lots, direction, mark) ==
      direction as real * Total(lots).quantity as real * mark - direction as real * Total(lots).cost
  {
    if lots != [] {
      GainsTotal(lots[1..], direction, mark);
      var lot := lots[0];
      assert (mark - lot.price) * lot.quantity as real == mark * lot.quantity as real - lot.price * lot.quantity as real;
      assert Total(lots).quantity as real * mark == lot.quantity as real * mark + Total(lots[1..]).quantity as real * mark;
    }
  }

  /** These are the gains of the accounting identity, before charges. */
  lemma {:induction false} GainsBeforeCharges(lots: seq<Lot>, direction: int, mark: real)
    ensures LotGains(lots, direction, mark) == OpenLots(lots, direction, mark) + Total(lots).charges
  {
    if lots != [] {
      GainsBeforeCharges(lots[1..], direction, mark);
    }
  }

  /**
   The average price stands for the lots: at every mark, the whole position at the average gains what
   the lots gain at their own prices; and there is one exactly when the position is not flat.
   */
  lemma AverageStandsForLots(bookId: string, key: Key, l: Ledger, now: int, mark: real)
    requires l.Valid()
    ensures
      var p := PositionOf(bookId, key, l, now);
      && (p.avgPrice.None? <==> l.Quantity() == 0)
      && (p.avgPrice.Some? ==>
            (mark - p.avgPrice.value) * l.Quantity() as real == LotGains(l.lots, l.direction, mark)
              == OpenPnl(l, mark) + Total(l.lots).charges)
  {
    GainsTotal(l.lots, l.direction, mark);
    GainsBeforeCharges(l.lots, l.direction, mark);
    if l.lots != [] {
      TotalPositive(l.lots);
      var t := Total(l.lots);
      hide Total, LotGains, OpenLots;
      AverageTimesShares(t.cost, t.quantity, l.direction, mark);
    }
  }

  lemma AverageTimesShares(cost: real, shares: int, direction: int, mark: real)
    requires 0 < shares
    ensures (mark - cost / shares as real) * (direction * shares) as real ==
      direction as real * shares as real * mark - direction as real * cost
  {
    var avg, n, d := cost / shares as real, shares as real, direction as real;
    assert avg * n == cost;
    assert (direction * shares) as real == d * n;
    assert (mark - avg) * (d * n) == d * n * mark - d * (avg * n);
  }

  /** Adding to a position averages in: the new average times the new size is the old one's plus the fill's. */
  lemma AddingAverages(bookId: string, key: Key, l: Ledger, f: Fill, product: Product, strategy: string, reason: string)
    requires l.Valid() && l.direction == f.side.Sign()
    ensures
      var was, now := PositionOf(bookId, key, l, f.ts), PositionOf(bookId, key, ApplyToLedger(l, f, product, strategy, reason).0, f.ts);
      && now.quantity == was.quantity + f.side.Sign() * f.quantity
      && was.avgPrice.Some? && now.avgPrice.Some?
      && now.avgPrice.value * Abs(now.quantity) as real ==
           was.avgPrice.value * Abs(was.quantity) as real + f.price * f.quantity as real
  {
    var lot := Lot(f.quantity, f.price, f.charges, f.ts, f.decisionId, strategy, f.fillId);
    assert ApplyToLedger(l, f, product, strategy, reason).0.lots == l.lots + [lot];
    TotalAppend(l.lots, lot);
    TotalPositive(l.lots);
    TotalPositive(l.lots + [lot]);
    hide Total;
    CostIs(Total(l.lots).cost, Total(l.lots).quantity);
    CostIs(Total(l.lots + [lot]).cost, Total(l.lots + [lot]).quantity);
  }

  lemma CostIs(cost: real, shares: int)
    requires 0 < shares
    ensures cost / shares as real * shares as real == cost
  {
  }

  /** The position a fill reports: where it was and what the fill did to it. */
  lemma ReportedPosition(b: BookState, f: Fill, product: Product, strategy: string, reason: string)
    requires b.Valid() && f.bookId == b.bookId && f.fillId !in b.seen
    ensures
      var (b', outcome) := ApplyFill(b, f, product, strategy, reason);
      var key := Key(f.instrument, product);
      && outcome.Outcome? && !outcome.duplicate
      && outcome.position.bookId == b.bookId && outcome.position.key == key && outcome.position.updatedAt == f.ts
      && outcome.position.quantity == b'.QuantityAt(key) == b.QuantityAt(key) + f.side.Sign() * f.quantity
      && outcome.position.realized == b.LedgerAt(key).realized + NetOf(outcome.closed)
      && (forall k: Key | k != key :: b'.LedgerAt(k) == b.LedgerAt(k))
  {
    var key := Key(f.instrument, product);
    var l := b.LedgerAt(key);
    FillKeepsWorth(l, f, product, strategy, reason);
    LedgerRealizes(l, f, product, strategy, reason);
    hide NetOf, CloseAll, Worth;
  }

  /** A fill seen before, or another book's, moves nothing and closes nothing. */
  lemma RepeatedOrForeign(b: BookState, f: Fill, product: Product, strategy: string, reason: string)
    requires f.bookId != b.bookId || f.fillId in b.seen
    ensures
      var (b', outcome) := ApplyFill(b, f, product, strategy, reason);
      && b'.cash == b.cash && b'.seen == b.seen && (forall k: Key :: b'.LedgerAt(k) == b.LedgerAt(k))
      && (outcome.WrongBook? <==> f.bookId != b.bookId)
      && (outcome.Outcome? ==>
            && outcome.duplicate && outcome.closed == []
            && outcome.position.quantity == b.QuantityAt(Key(f.instrument, product)))
  {
    hide Total;
  }

  lemma LedgerRealizes(l: Ledger, f: Fill, product: Product, strategy: string, reason: string)
    ensures
      var (l', closed) := ApplyToLedger(l, f, product, strategy, reason);
      l'.realized == l.realized + NetOf(closed) && l'.updatedAt == Some(f.ts)
  {
    CloseAllNet(Closing(l.lots, f.quantity, f.charges, [], l.realized), l.direction, f, product, reason);
    hide CloseAll;
  }

  // ---- The reported pieces ----------------------------------------------------------------------------

  /** A piece as its fill must report it: the opening leg, both legs' prices and what they made. */
  ghost predicate Reported(p: ClosedPiece, i: nat, f: Fill, product: Product, reason: string) {
    && p.fillId == f.fillId && p.index == i + 1
    && p.key == Key(f.instrument, product)
    && p.side != f.side && p.exitPrice == f.price && p.exitTs == f.ts
    && p.exitDecisionId == f.decisionId && p.exitReason == reason
    && p.gross == (if p.side == Buy then p.exitPrice - p.entryPrice else p.entryPrice - p.exitPrice) * p.quantity as real
    && p.Net() == p.gross - p.Charges()
  }

  ghost predicate ReportedAll(pieces: seq<ClosedPiece>, f: Fill, product: Product, reason: string) {
    forall i: nat | i < |pieces| :: Reported(pieces[i], i, f, product, reason)
  }

  lemma StepReports(c: Closing, direction: int, f: Fill, product: Product, reason: string)
    requires c.lots != [] && 0 < c.remaining && direction == -f.side.Sign() && ReportedAll(c.closed, f, product, reason)
    ensures ReportedAll(CloseStep(c, direction, f, product, reason).closed, f, product, reason)
  {
    hide Share;
    var d := CloseStep(c, direction, f, product, reason);
    forall i: nat | i < |d.closed| ensures Reported(d.closed[i], i, f, product, reason) {
      if i < |c.closed| {
        assert d.closed[i] == c.closed[i];
      } else {
        var p := d.closed[i];
        assert p.gross == (f.price - p.entryPrice) * p.quantity as real * direction as real;
      }
    }
  }

  lemma {:induction false} AllReported(c: Closing, direction: int, f: Fill, product: Product, reason: string)
    requires direction == -f.side.Sign() && ReportedAll(c.closed, f, product, reason)
    ensures ReportedAll(CloseAll(c, direction, f, product, reason).closed, f, product, reason)
    decreases c.remaining
  {
    hide CloseStep, ReportedAll;
    if c.remaining != 0 && c.lots != [] {
      StepReports(c, direction, f, product, reason);
      CloseStepShrinks(c, direction, f, product, reason);
      AllReported(CloseStep(c, direction, f, product, reason), direction, f, product, reason);
    }
  }

  /**
   Every piece of every fill is reported with its number, its key, the leg that opened it, both prices
   and times, the decision and reason that closed it, and the gross those make. With FIFO order, which
   says whose shares they are, that is everything a TradeClosed event carries.
   */
  lemma PiecesReported(l: Ledger, f: Fill, product: Product, strategy: string, reason: string)
    requires l.Valid()
    ensures ReportedAll(ApplyToLedger(l, f, product, strategy, reason).1, f, product, reason)
  {
    var start := Closing(l.lots, f.quantity, f.charges, [], l.realized);
    if l.direction == -f.side.Sign() {
      AllReported(start, l.direction, f, product, reason);
    }
    hide CloseAll, Reported;
  }
}

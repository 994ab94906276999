/**
 What the PositionBook promises of every run of fills: the accounting identity, one net position
 per key, FIFO order, and charge allocations that lose nothing.
 */
module BookProofs {
  import opened Domain
  import opened Sums
  import opened PositionBook

  // ---- Sums over lots ------------------------------------------------------------------------

  lemma {:induction false} TotalAppend(lots: seq<Lot>, lot: Lot)
    ensures Total(lots + [lot]) == Totals(
              Total(lots).quantity + lot.quantity,
              Total(lots).cost + lot.price * lot.quantity as real,
              Total(lots).charges + lot.charges)
  {
    if lots == [] {
      assert lots + [lot] == [lot];
    } else {
      assert (lots + [lot])[1..] == lots[1..] + [lot];
      TotalAppend(lots[1..], lot);
    }
  }

  lemma {:induction false} TotalPositive(lots: seq<Lot>)
    ensures 0 <= Total(lots).quantity
    ensures lots != [] ==> 0 < Total(lots).quantity
    ensures lots != [] ==> 0.0 < Total(lots).cost
    ensures 0.0 <= Total(lots).cost
  {
    if lots != [] {
      TotalPositive(lots[1..]);
    }
  }

  // ---- The closing loop ----------------------------------------------------------------------

  lemma CloseStepTotals(c: Closing, direction: int, f: Fill, product: Product, reason: string)
    requires c.lots != [] && 0 < c.remaining
    ensures
      var d := CloseStep(c, direction, f, product, reason);
      var piece := d.closed[|c.closed|];
      && |d.closed| == |c.closed| + 1
      && piece.quantity == Min(c.remaining, c.lots[0].quantity)
      && Total(d.lots) == Totals(
           Total(c.lots).quantity - piece.quantity,
           Total(c.lots).cost - c.lots[0].price * piece.quantity as real,
           Total(c.lots).charges - piece.entryCharges)
  {
    hide Quantize;
    var d := CloseStep(c, direction, f, product, reason);
    var lot := c.lots[0];
    var take := Min(c.remaining, lot.quantity);
    if take == lot.quantity {
      assert d.lots == c.lots[1..];
    } else {
      assert d.lots[1..] == c.lots[1..];
      assert lot.price * (lot.quantity - take) as real
          == lot.price * lot.quantity as real - lot.price * take as real;
    }
  }

  /** What a closing is worth at the fill's price: the quantity the loop conserves. */
  ghost function ClosingWorth(c: Closing, direction: int, price: real): real {
    var t := Total(c.lots);
    c.realized - direction as real * t.cost - t.charges - c.exitCharges
      + price * direction as real * c.remaining as real
  }

  lemma CloseStepWorth(c: Closing, direction: int, f: Fill, product: Product, reason: string)
    requires c.lots != [] && 0 < c.remaining
    requires direction == 1 || direction == -1
    ensures ClosingWorth(CloseStep(c, direction, f, product, reason), direction, f.price)
         == ClosingWorth(c, direction, f.price)
  {
    hide Share, Total;
    CloseStepTotals(c, direction, f, product, reason);
    var d := CloseStep(c, direction, f, product, reason);
    var piece := d.closed[|c.closed|];
    var cost := c.lots[0].price * piece.quantity as real;
    var paid := f.price * piece.quantity as real;
    assert f.price * d.remaining as real == f.price * c.remaining as real - paid;
    GrossIs(f.price, c.lots[0].price, piece.quantity, direction);
    WorthStep(direction as real, Total(c.lots).cost, f.price * c.remaining as real, cost, paid);
    assert ClosingWorth(d, direction, f.price)
        == d.realized - direction as real * Total(d.lots).cost - Total(d.lots).charges - d.exitCharges
           + direction as real * (f.price * d.remaining as real);
  }

  lemma GrossIs(exit: real, entry: real, take: int, direction: int)
    ensures Gross(exit, entry, take, direction) == direction as real * (exit * take as real - entry * take as real)
  {
    assert (exit - entry) * take as real == exit * take as real - entry * take as real;
  }

  /** Closing part of the cost at the fill's price moves cost into P&L, one for one. */
  lemma WorthStep(d: real, cost: real, ahead: real, part: real, paid: real)
    ensures d * (paid - part) - d * (cost - part) + d * (ahead - paid) == -(d * cost) + d * ahead
  {
  }

  lemma {:induction false} CloseAllWorth(c: Closing, direction: int, f: Fill, product: Product, reason: string)
    requires direction == 1 || direction == -1
    requires c.remaining == 0 ==> c.exitCharges == 0.0
    ensures
      var e := CloseAll(c, direction, f, product, reason);
      && ClosingWorth(e, direction, f.price) == ClosingWorth(c, direction, f.price)
      && Total(e.lots).quantity - e.remaining == Total(c.lots).quantity - c.remaining
      && (e.remaining == 0 ==> e.exitCharges == 0.0)
      && (e.remaining == 0 || e.lots == [])
    decreases c.remaining
  {
    if c.remaining != 0 && c.lots != [] {
      hide ClosingWorth, Share, Gross;
      CloseStepWorth(c, direction, f, product, reason);
      CloseStepTotals(c, direction, f, product, reason);
      CloseAllWorth(CloseStep(c, direction, f, product, reason), direction, f, product, reason);
    }
  }

  // ---- One fill on one key ----------------------------------------------------------------------

  /** Realised P&L less the cost and the unallocated charges of what is still open. */
  ghost function Worth(l: Ledger): real {
    l.realized - l.direction as real * Total(l.lots).cost - Total(l.lots).charges
  }

  /** A fill moves the key's worth by exactly the cash it moves, and the net position by its signed quantity. */
  ghost predicate Moves(l: Ledger, l': Ledger, f: Fill) {
    && l'.Valid()
    && Worth(l') == Worth(l) + CashMove(f)
    && l'.Quantity() == l.Quantity() + f.side.Sign() * f.quantity
  }

  lemma FillKeepsWorth(l: Ledger, f: Fill, product: Product, strategy: string, reason: string)
    requires l.Valid()
    ensures Moves(l, ApplyToLedger(l, f, product, strategy, reason).0, f)
  {
    hide Moves, Worth, CashMove;
    if l.direction != -f.side.Sign() {
      FillAdds(l, f, product, strategy, reason);
    } else if Close(l, f, product, reason).remaining == 0 {
      FillReduces(l, f, product, strategy, reason);
    } else {
      FillFlips(l, f, product, strategy, reason);
    }
  }

  lemma FillAdds(l: Ledger, f: Fill, product: Product, strategy: string, reason: string)
    requires l.Valid() && l.direction != -f.side.Sign()
    ensures Moves(l, ApplyToLedger(l, f, product, strategy, reason).0, f)
  {
    var l' := ApplyToLedger(l, f, product, strategy, reason).0;
    TotalAppend(l.lots, l'.lots[|l.lots|]);
  }

  lemma FillReduces(l: Ledger, f: Fill, product: Product, strategy: string, reason: string)
    requires l.Valid() && l.direction == -f.side.Sign()
    requires Close(l, f, product, reason).remaining == 0
    ensures Moves(l, ApplyToLedger(l, f, product, strategy, reason).0, f)
  {
    hide CloseAll;
    var c := Close(l, f, product, reason);
    CloseAllWorth(Closing(l.lots, f.quantity, f.charges, [], l.realized), l.direction, f, product, reason);
    TotalPositive(c.lots);
  }

  lemma FillFlips(l: Ledger, f: Fill, product: Product, strategy: string, reason: string)
    requires l.Valid() && l.direction == -f.side.Sign()
    requires Close(l, f, product, reason).remaining != 0
    ensures Moves(l, ApplyToLedger(l, f, product, strategy, reason).0, f)
  {
    hide CloseAll;
    var c := Close(l, f, product, reason);
    var start := Closing(l.lots, f.quantity, f.charges, [], l.realized);
    CloseAllWorth(start, l.direction, f, product, reason);
    CloseAllTakes(start, l.direction, f, product, reason);
    var l' := ApplyToLedger(l, f, product, strategy, reason).0;
    assert l'.lots == [l'.lots[0]];
    assert Total(l'.lots) == Totals(c.remaining, f.price * c.remaining as real, c.exitCharges);
  }

  /** The loop closes something whenever there is something to close. */
  lemma {:induction false} CloseAllTakes(c: Closing, direction: int, f: Fill, product: Product, reason: string)
    ensures |c.closed| <= |CloseAll(c, direction, f, product, reason).closed|
    ensures c.lots != [] && 0 < c.remaining ==> |c.closed| < |CloseAll(c, direction, f, product, reason).closed|
    decreases c.remaining
  {
    hide Share, Gross;
    if c.remaining != 0 && c.lots != [] {
      CloseAllTakes(CloseStep(c, direction, f, product, reason), direction, f, product, reason);
    }
  }

  // ---- The whole book, over every run ---------------------------------------------------------

  /** One call of apply. */
  datatype Application = Application(fill: Fill, product: Product, strategy: string, exitReason: string)

  function ApplyRun(b: BookState, run: seq<Application>): BookState {
    if run == [] then b else
      var a := run[|run| - 1];
      ApplyFill(ApplyRun(b, run[..|run| - 1]), a.fill, a.product, a.strategy, a.exitReason).0
  }

  function NewBook(bookId: string, cash: real): BookState { BookState(bookId, cash, cash, map[], {}) }

  ghost function Worths(b: BookState): map<Key, real> { map k | k in b.ledgers :: Worth(b.ledgers[k]) }

  /** Cash is the starting cash plus the worth of every key. */
  ghost predicate Balanced(b: BookState) {
    b.Valid() && b.cash == b.startingCash + Sum(Worths(b))
  }

  lemma ApplyKeepsBalance(b: BookState, f: Fill, product: Product, strategy: string, reason: string)
    requires Balanced(b)
    ensures Balanced(ApplyFill(b, f, product, strategy, reason).0)
  {
    hide Worth, ApplyToLedger, PositionOf, CashMove;
    var b' := ApplyFill(b, f, product, strategy, reason).0;
    if f.bookId == b.bookId {
      var key := Key(f.instrument, product);
      var l := b.LedgerAt(key);
      assert Worth(EMPTY) == 0.0 by { EmptyWorth(); }
      FillKeepsWorth(l, f, product, strategy, reason);
      SumUpdate(Worths(b), key, Worth(b'.ledgers[key]));
      assert Worths(b') == Worths(b)[key := Worth(b'.ledgers[key])];
    }
  }

  lemma EmptyWorth()
    ensures Worth(EMPTY) == 0.0
  {
  }

  lemma {:induction false} RunBalanced(bookId: string, cash: real, run: seq<Application>)
    ensures Balanced(ApplyRun(NewBook(bookId, cash), run))
    ensures ApplyRun(NewBook(bookId, cash), run).startingCash == cash
  {
    hide ApplyToLedger, PositionOf, CashMove, Worth;
    if run != [] {
      var a := run[|run| - 1];
      RunBalanced(bookId, cash, run[..|run| - 1]);
      ApplyKeepsBalance(ApplyRun(NewBook(bookId, cash), run[..|run| - 1]), a.fill, a.product, a.strategy, a.exitReason);
    }
  }

  /** What a key's lots would gain if marked, with their remaining charges taken off. */
  ghost function OpenPnl(l: Ledger, mark: real): real {
    OpenLots(l.lots, l.direction, mark)
  }

  ghost function OpenLots(lots: seq<Lot>, direction: int, mark: real): real {
    if lots == [] then 0.0 else
      direction as real * ((mark - lots[0].price) * lots[0].quantity as real) - lots[0].charges
        + OpenLots(lots[1..], direction, mark)
  }

  lemma {:induction false} OpenLotsTotal(lots: seq<Lot>, direction: int, mark: real)
    requires direction in {-1, 0, 1}
    ensures OpenLots(lots, direction, mark)
         == direction as real * Total(lots).quantity as real * mark
            - direction as real * Total(lots).cost - Total(lots).charges
  {
    if lots != [] {
      OpenLotsTotal(lots[1..], direction, mark);
      var lot := lots[0];
      assert (mark - lot.price) * lot.quantity as real == mark * lot.quantity as real - lot.price * lot.quantity as real;
      assert Total(lots).quantity as real * mark == lot.quantity as real * mark + Total(lots[1..]).quantity as real * mark;
    }
  }

  function MarkOf(key: Key, marks: map<string, real>): real {
    if key.instrument in marks then marks[key.instrument] else 0.0
  }

  ghost function OpenPnls(b: BookState, marks: map<string, real>): map<Key, real> {
    map k | k in b.ledgers :: OpenPnl(b.ledgers[k], MarkOf(k, marks))
  }

  lemma WorthPlusMark(l: Ledger, key: Key, marks: map<string, real>)
    requires l.Valid() && HasMark(l, key, marks)
    ensures Worth(l) + MarkedValue(l, key, marks) == l.realized + OpenPnl(l, MarkOf(key, marks))
  {
    OpenLotsTotal(l.lots, l.direction, MarkOf(key, marks));
    if l.lots != [] {
      TotalPositive(l.lots);
      assert l.Quantity() != 0;
    }
  }

  /**
   The accounting identity of src/oms/position_book.py: after any run of fills, over any
   instruments, and for any marks, equity less starting cash is the realised P&L plus, over the
   open lots, (mark - price) x signed quantity less unallocated charges.
   */
  lemma AccountingIdentity(bookId: string, cash: real, run: seq<Application>, marks: map<string, real>)
    requires HasMarks(ApplyRun(NewBook(bookId, cash), run), marks)
    ensures
      var b := ApplyRun(NewBook(bookId, cash), run);
      Equity(b, marks) - cash == Realized(b) + Sum(OpenPnls(b, marks))
  {
    var b := ApplyRun(NewBook(bookId, cash), run);
    RunBalanced(bookId, cash, run);
    IdentityOf(b, marks);
  }

  lemma IdentityOf(b: BookState, marks: map<string, real>)
    requires Balanced(b) && HasMarks(b, marks)
    ensures Equity(b, marks) - b.startingCash == Realized(b) + Sum(OpenPnls(b, marks))
  {
    hide Worth, MarkedValue, OpenPnl;
    var realized := map k | k in b.ledgers :: b.ledgers[k].realized;
    var total := map k | k in b.ledgers :: Worth(b.ledgers[k]) + MarkedValue(b.ledgers[k], k, marks);
    forall k | k in b.ledgers ensures total[k] == realized[k] + OpenPnls(b, marks)[k] {
      WorthPlusMark(b.ledgers[k], k, marks);
    }
    SumAdd(Worths(b), Marked(b, marks), total);
    SumAdd(realized, OpenPnls(b, marks), total);
  }
}

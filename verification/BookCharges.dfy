/**
 The closing loop against two independent pictures of it: a queue of single shares (FIFO), and
 exact pro rata charges (what rounding may and may not do).
 */
module BookCharges {
  import opened Domain
  import opened PositionBook
  import opened BookProofs

  // ---- FIFO: the lots as a queue of shares ---------------------------------------------------

  /** One share, with the lineage of the lot that holds it. */
  datatype Unit = Unit(fillId: string, price: real, openedAt: int, decisionId: string, strategy: string)

  function LotUnit(lot: Lot): Unit { Unit(lot.fillId, lot.price, lot.openedAt, lot.decisionId, lot.strategy) }

  function PieceUnit(p: ClosedPiece): Unit { Unit(p.lotFillId, p.entryPrice, p.entryTs, p.decisionId, p.strategy) }

  function Copies(u: Unit, n: nat): seq<Unit> { seq(n, _ => u) }

  function Units(lots: seq<Lot>): seq<Unit> {
    if lots == [] then [] else Copies(LotUnit(lots[0]), lots[0].quantity) + Units(lots[1..])
  }

  function PieceUnits(pieces: seq<ClosedPiece>): seq<Unit> {
    if pieces == [] then [] else
      PieceUnits(pieces[..|pieces| - 1]) + Copies(PieceUnit(pieces[|pieces| - 1]), pieces[|pieces| - 1].quantity)
  }

  lemma CloseStepUnits(c: Closing, direction: int, f: Fill, product: Product, reason: string)
    requires c.lots != [] && 0 < c.remaining
    ensures
      var d := CloseStep(c, direction, f, product, reason);
      PieceUnits(d.closed) + Units(d.lots) == PieceUnits(c.closed) + Units(c.lots)
  {
    hide Share, Gross;
    var d := CloseStep(c, direction, f, product, reason);
    var lot := c.lots[0];
    var piece := d.closed[|c.closed|];
    assert d.closed[..|c.closed|] == c.closed;
    assert PieceUnit(piece) == LotUnit(lot);
    if piece.quantity == lot.quantity {
      assert d.lots == c.lots[1..];
    } else {
      assert d.lots[1..] == c.lots[1..];
      assert Copies(LotUnit(lot), lot.quantity)
          == Copies(LotUnit(lot), piece.quantity) + Copies(LotUnit(lot), lot.quantity - piece.quantity);
    }
  }

  lemma {:induction false} CloseAllUnits(c: Closing, direction: int, f: Fill, product: Product, reason: string)
    ensures
      var e := CloseAll(c, direction, f, product, reason);
      PieceUnits(e.closed) + Units(e.lots) == PieceUnits(c.closed) + Units(c.lots)
    decreases c.remaining
  {
    if c.remaining != 0 && c.lots != [] {
      hide CloseStep;
      CloseStepUnits(c, direction, f, product, reason);
      assert CloseStep(c, direction, f, product, reason).remaining < c.remaining by { CloseStepShrinks(c, direction, f, product, reason); }
      CloseAllUnits(CloseStep(c, direction, f, product, reason), direction, f, product, reason);
    }
  }

  lemma CloseStepShrinks(c: Closing, direction: int, f: Fill, product: Product, reason: string)
    requires c.lots != [] && 0 < c.remaining
    ensures CloseStep(c, direction, f, product, reason).remaining < c.remaining
  {
  }

  lemma {:induction false} UnitsCount(lots: seq<Lot>)
    ensures |Units(lots)| == Total(lots).quantity
  {
    if lots != [] {
      UnitsCount(lots[1..]);
    }
  }

  lemma {:induction false} UnitsAppend(lots: seq<Lot>, lot: Lot)
    ensures Units(lots + [lot]) == Units(lots) + Copies(LotUnit(lot), lot.quantity)
  {
    if lots == [] {
      assert lots + [lot] == [lot];
    } else {
      assert (lots + [lot])[1..] == lots[1..] + [lot];
      UnitsAppend(lots[1..], lot);
    }
  }

  /**
   FIFO: a fill against the position takes the oldest shares off the queue, in order, and reports
   exactly those as closed; what the fill has left over joins the back as one new lot.
   */
  lemma FillIsFifo(l: Ledger, f: Fill, product: Product, strategy: string, reason: string)
    requires l.Valid()
    ensures
      var (l', closed) := ApplyToLedger(l, f, product, strategy, reason);
      var against := l.direction == -f.side.Sign();
      var n := if against then Min(f.quantity, |Units(l.lots)|) else 0;
      && PieceUnits(closed) == Units(l.lots)[..n]
      && Units(l'.lots) == Units(l.lots)[n..]
           + Copies(Unit(f.fillId, f.price, f.ts, f.decisionId, strategy), f.quantity - n)
  {
    hide Total, CloseAll;
    var (l', closed) := ApplyToLedger(l, f, product, strategy, reason);
    var c := Close(l, f, product, reason);
    var start := Closing(l.lots, f.quantity, f.charges, [], l.realized);
    if l.direction == -f.side.Sign() {
      CloseAllUnits(start, l.direction, f, product, reason);
      CloseAllWorth(start, l.direction, f, product, reason);
      UnitsCount(l.lots);
      UnitsCount(c.lots);
      var n := |PieceUnits(closed)|;
      assert PieceUnits(closed) + Units(c.lots) == Units(l.lots);
      assert Units(l.lots)[..n] == PieceUnits(closed) && Units(l.lots)[n..] == Units(c.lots);
      assert c.remaining == f.quantity - n;
    }
    if c.remaining != 0 {
      UnitsAppend(c.lots, l'.lots[|c.lots|]);
    }
  }

  // ---- Charges: nothing is lost ----------------------------------------------------------------

  function ExitSum(pieces: seq<ClosedPiece>): real {
    if pieces == [] then 0.0 else ExitSum(pieces[..|pieces| - 1]) + pieces[|pieces| - 1].exitCharges
  }

  /** What the pieces of one lot have been charged, by the fill that opened the lot. */
  function EntrySum(pieces: seq<ClosedPiece>, fillId: string): real {
    if pieces == [] then 0.0 else
      var p := pieces[|pieces| - 1];
      EntrySum(pieces[..|pieces| - 1], fillId) + if p.lotFillId == fillId then p.entryCharges else 0.0
  }

  function OpenCharges(lots: seq<Lot>, fillId: string): real {
    if lots == [] then 0.0 else
      (if lots[0].fillId == fillId then lots[0].charges else 0.0) + OpenCharges(lots[1..], fillId)
  }

  lemma CloseStepCharges(c: Closing, direction: int, f: Fill, product: Product, reason: string, fillId: string)
    requires c.lots != [] && 0 < c.remaining
    ensures
      var d := CloseStep(c, direction, f, product, reason);
      && d.remaining < c.remaining
      && ExitSum(d.closed) + d.exitCharges == ExitSum(c.closed) + c.exitCharges
      && EntrySum(d.closed, fillId) + OpenCharges(d.lots, fillId)
           == EntrySum(c.closed, fillId) + OpenCharges(c.lots, fillId)
  {
    hide Share, Gross;
    var d := CloseStep(c, direction, f, product, reason);
    assert d.closed[..|c.closed|] == c.closed;
    if Min(c.remaining, c.lots[0].quantity) != c.lots[0].quantity {
      assert d.lots[1..] == c.lots[1..];
    }
  }

  lemma {:induction false} CloseAllCharges(c: Closing, direction: int, f: Fill, product: Product, reason: string, fillId: string)
    ensures
      var e := CloseAll(c, direction, f, product, reason);
      && ExitSum(e.closed) + e.exitCharges == ExitSum(c.closed) + c.exitCharges
      && EntrySum(e.closed, fillId) + OpenCharges(e.lots, fillId)
           == EntrySum(c.closed, fillId) + OpenCharges(c.lots, fillId)
    decreases c.remaining
  {
    if c.remaining != 0 && c.lots != [] {
      hide CloseStep;
      CloseStepCharges(c, direction, f, product, reason, fillId);
      CloseAllCharges(CloseStep(c, direction, f, product, reason), direction, f, product, reason, fillId);
    }
  }

  lemma {:induction false} OpenChargesAppend(lots: seq<Lot>, lot: Lot, fillId: string)
    ensures OpenCharges(lots + [lot], fillId)
         == OpenCharges(lots, fillId) + if lot.fillId == fillId then lot.charges else 0.0
  {
    if lots == [] {
      assert lots + [lot] == [lot];
    } else {
      assert (lots + [lot])[1..] == lots[1..] + [lot];
      OpenChargesAppend(lots[1..], lot, fillId);
    }
  }

  /** What the lot opened by this fill starts with: nothing unless the fill opens one. */
  function OpeningCharges(l: Ledger, f: Fill, product: Product, strategy: string, reason: string): real {
    var l' := ApplyToLedger(l, f, product, strategy, reason).0;
    if Close(l, f, product, reason).remaining == 0 || l'.lots == [] then 0.0 else l'.lots[|l'.lots| - 1].charges
  }

  /** Over one fill, the exit shares plus what a flipped or opened lot carries are the fill's charges, exactly. */
  lemma ExitChargesExact(l: Ledger, f: Fill, product: Product, strategy: string, reason: string)
    requires l.Valid()
    ensures ExitSum(ApplyToLedger(l, f, product, strategy, reason).1)
              + OpeningCharges(l, f, product, strategy, reason) == f.charges
  {
    hide CloseAll, Total;
    if l.direction == -f.side.Sign() {
      var start := Closing(l.lots, f.quantity, f.charges, [], l.realized);
      CloseAllCharges(start, l.direction, f, product, reason, f.fillId);
      CloseAllWorth(start, l.direction, f, product, reason);
    }
  }

  /** Every run of fills on one key: the ledger, the pieces closed so far, and a lot's opening charges. */
  function LedgerRun(run: seq<Application>): (r: (Ledger, seq<ClosedPiece>)) {
    if run == [] then (EMPTY, []) else
      var (l, closed) := LedgerRun(run[..|run| - 1]);
      var a := run[|run| - 1];
      var (l', more) := ApplyToLedger(l, a.fill, a.product, a.strategy, a.exitReason);
      (l', closed + more)
  }

  function Opened(run: seq<Application>, fillId: string): real {
    if run == [] then 0.0 else
      var a := run[|run| - 1];
      Opened(run[..|run| - 1], fillId) +
      if a.fill.fillId == fillId
      then OpeningCharges(LedgerRun(run[..|run| - 1]).0, a.fill, a.product, a.strategy, a.exitReason)
      else 0.0
  }

  lemma {:induction false} EntrySumConcat(a: seq<ClosedPiece>, b: seq<ClosedPiece>, fillId: string)
    ensures EntrySum(a + b, fillId) == EntrySum(a, fillId) + EntrySum(b, fillId)
  {
    if b == [] {
      assert a + b == a;
    } else {
      assert (a + b)[..|a + b| - 1] == a + b[..|b| - 1];
      EntrySumConcat(a, b[..|b| - 1], fillId);
    }
  }

  lemma FillCharges(l: Ledger, f: Fill, product: Product, strategy: string, reason: string, fillId: string)
    requires l.Valid()
    ensures
      var (l', closed) := ApplyToLedger(l, f, product, strategy, reason);
      EntrySum(closed, fillId) + OpenCharges(l'.lots, fillId)
        == OpenCharges(l.lots, fillId)
           + if f.fillId == fillId then OpeningCharges(l, f, product, strategy, reason) else 0.0
  {
    hide CloseAll, Total;
    var l' := ApplyToLedger(l, f, product, strategy, reason).0;
    var c := Close(l, f, product, reason);
    if l.direction == -f.side.Sign() {
      CloseAllCharges(Closing(l.lots, f.quantity, f.charges, [], l.realized), l.direction, f, product, reason, fillId);
    }
    if c.remaining != 0 {
      OpenChargesAppend(c.lots, l'.lots[|c.lots|], fillId);
    }
  }

  /**
   Over a lot's life: what its pieces have been charged plus what it still carries is what it was
   opened with, exactly, in every run. Once the lot is gone its pieces add up to its charges.
   */
  lemma {:induction false} LotChargesConserved(run: seq<Application>, fillId: string)
    ensures LedgerRun(run).0.Valid()
    ensures EntrySum(LedgerRun(run).1, fillId) + OpenCharges(LedgerRun(run).0.lots, fillId) == Opened(run, fillId)
  {
    if run != [] {
      hide ApplyToLedger, OpeningCharges;
      var a := run[|run| - 1];
      var (l, closed) := LedgerRun(run[..|run| - 1]);
      LotChargesConserved(run[..|run| - 1], fillId);
      FillKeepsWorth(l, a.fill, a.product, a.strategy, a.exitReason);
      FillCharges(l, a.fill, a.product, a.strategy, a.exitReason, fillId);
      EntrySumConcat(closed, ApplyToLedger(l, a.fill, a.product, a.strategy, a.exitReason).1, fillId);
    }
  }

  // ---- Charges: how far rounding strays ---------------------------------------------------------

  function AbsReal(x: real): real { if x < 0.0 then -x else x }

  lemma QuantizeNear(x: real)
    ensures AbsReal(Quantize(x) - x) <= HALF_QUANTUM
  {
  }

  /** Halfway cases go to the even neighbour, and what is already on the grid stays. */
  lemma QuantizeTies(n: int)
    ensures Quantize(n as real / 10000.0) == n as real / 10000.0
    ensures Quantize((2 * n) as real / 10000.0 + HALF_QUANTUM) == (2 * n) as real / 10000.0
    ensures Quantize((2 * n + 1) as real / 10000.0 + HALF_QUANTUM) == (2 * n + 2) as real / 10000.0
  {
    hide Quantize;
    QuantizeAt(n as real / 10000.0, n, 0.0);
    QuantizeAt((2 * n) as real / 10000.0 + HALF_QUANTUM, 2 * n, 0.5);
    QuantizeAt((2 * n + 1) as real / 10000.0 + HALF_QUANTUM, 2 * n + 1, 0.5);
  }

  lemma QuantizeAt(x: real, n: int, part: real)
    requires x * 10000.0 == n as real + part && 0.0 <= part < 1.0
    ensures Quantize(x) == (if part < 0.5 || (part == 0.5 && n % 2 == 0) then n else n + 1) as real / 10000.0
  {
    assert (x * 10000.0).Floor == n;
  }

  /** Exact pro rata share of the fill's charges. */
  function Exact(f: Fill, n: int): real { f.charges * n as real / f.quantity as real }

  lemma ExactSplits(f: Fill, a: int, b: int)
    ensures Exact(f, a + b) == Exact(f, a) + Exact(f, b)
  {
    var q := f.quantity as real;
    assert f.charges * (a + b) as real == f.charges * a as real + f.charges * b as real;
    assert (f.charges * a as real + f.charges * b as real) / q == f.charges * a as real / q + f.charges * b as real / q;
  }

  /** Piece i is within half a quantum; the one that finishes the fill, within half a quantum per earlier piece. */
  ghost predicate NearShare(c: Closing, f: Fill, i: nat)
    requires i < |c.closed|
  {
    var error := AbsReal(c.closed[i].exitCharges - Exact(f, c.closed[i].quantity));
    if i == |c.closed| - 1 && c.remaining == 0 then error <= i as real * HALF_QUANTUM else error <= HALF_QUANTUM
  }

  ghost predicate NearShares(c: Closing, f: Fill) {
    && (forall i: nat | i < |c.closed| :: NearShare(c, f, i))
    && (0 < c.remaining ==> AbsReal(c.exitCharges - Exact(f, c.remaining)) <= |c.closed| as real * HALF_QUANTUM)
  }

  lemma CloseStepNear(c: Closing, direction: int, f: Fill, product: Product, reason: string)
    requires c.lots != [] && 0 < c.remaining && NearShares(c, f)
    ensures NearShares(CloseStep(c, direction, f, product, reason), f)
  {
    hide Quantize, Exact, Gross;
    var d := CloseStep(c, direction, f, product, reason);
    var n := |c.closed|;
    var piece := d.closed[n];
    ExactSplits(f, piece.quantity, d.remaining);
    forall i: nat | i < |d.closed| ensures NearShare(d, f, i) {
      if i < n {
        assert NearShare(c, f, i);
        assert d.closed[i] == c.closed[i];
      } else if piece.quantity != c.remaining {
        ShareNear(f, piece.quantity);
      }
    }
    if 0 < d.remaining {
      ShareNear(f, piece.quantity);
      assert d.exitCharges - Exact(f, d.remaining)
          == (c.exitCharges - Exact(f, c.remaining)) - (piece.exitCharges - Exact(f, piece.quantity));
    }
  }

  /** A pro rata part, not rounded. */
  function ExactPart(charges: real, take: Quantity, whole: Quantity): real { charges * take as real / whole as real }

  /** A lot's entry charges go the same way: all of them with its last share, else its exact part to within half a quantum. */
  lemma EntryShareNear(c: Closing, direction: int, f: Fill, product: Product, reason: string)
    requires c.lots != [] && 0 < c.remaining
    ensures
      var lot, d := c.lots[0], CloseStep(c, direction, f, product, reason);
      var piece := d.closed[|c.closed|];
      && (lot.quantity <= c.remaining ==> piece.quantity == lot.quantity && piece.entryCharges == lot.charges)
      && (c.remaining < lot.quantity ==>
            && piece.quantity == c.remaining
            && AbsReal(piece.entryCharges - ExactPart(lot.charges, c.remaining, lot.quantity)) <= HALF_QUANTUM)
  {
    hide Gross, Share, ExactPart;
    if c.remaining < c.lots[0].quantity {
      EntryNear(c.lots[0].charges, c.remaining, c.lots[0].quantity);
    }
  }

  lemma EntryNear(charges: real, take: Quantity, whole: Quantity)
    ensures AbsReal(Share(charges, take, whole) - ExactPart(charges, take, whole)) <= HALF_QUANTUM
  {
    hide Quantize;
    QuantizeNear(charges * take as real / whole as real);
  }

  lemma ShareNear(f: Fill, take: Quantity)
    ensures AbsReal(Share(f.charges, take, f.quantity) - Exact(f, take)) <= HALF_QUANTUM
  {
    hide Quantize;
    QuantizeNear(Exact(f, take));
    assert Share(f.charges, take, f.quantity) == Quantize(Exact(f, take));
  }

  lemma {:induction false} CloseAllNear(c: Closing, direction: int, f: Fill, product: Product, reason: string)
    requires NearShares(c, f)
    ensures NearShares(CloseAll(c, direction, f, product, reason), f)
    decreases c.remaining
  {
    if c.remaining != 0 && c.lots != [] {
      hide CloseStep, NearShares;
      CloseStepNear(c, direction, f, product, reason);
      CloseStepShrinks(c, direction, f, product, reason);
      CloseAllNear(CloseStep(c, direction, f, product, reason), direction, f, product, reason);
    }
  }

  /**
   Every piece of every fill is within half a quantum of its exact share, except a last piece (or
   the lot of a flip), which is within half a quantum for each piece before it.
   */
  lemma ExitSharesNear(l: Ledger, f: Fill, product: Product, reason: string)
    ensures NearShares(Close(l, f, product, reason), f)
  {
    var start := Closing(l.lots, f.quantity, f.charges, [], l.realized);
    assert Exact(f, f.quantity) == f.charges;
    CloseAllNear(start, l.direction, f, product, reason);
  }

  // ---- TradeClosed.charges must not be negative ---------------------------------------------------

  /**
   The event type of a closed trade refuses negative charges, and the last piece of a fill can be
   charged less than nothing, with charges in whole paise: lots of 34, 34, 137 and 1 share, small
   enough to have cost nothing, closed by one fill that costs a paisa.
   */
  lemma LastPieceCanBeNegative(f: Fill, product: Product, strategy: string, reason: string)
    requires f.side == Sell && f.quantity == 206 && f.charges == 0.01
    ensures
      var closed := ApplyToLedger(Ledger(FourLots(), 1, 0.0, None), f, product, strategy, reason).1;
      |closed| == 4 && closed[3].Charges() == -0.0001
  {
    hide Gross, Share;
    var a, b, d := FreeLot(34), FreeLot(137), FreeLot(1);
    PaisaShares(f);
    var c0 := Closing([a, a, b, d], 206, f.charges, [], 0.0);
    var c1 := CloseStep(c0, 1, f, product, reason);
    assert c1.lots == [a, b, d] && c1.remaining == 172 && c1.exitCharges == 0.0083;
    var c2 := CloseStep(c1, 1, f, product, reason);
    assert c2.lots == [b, d] && c2.remaining == 138 && c2.exitCharges == 0.0066;
    var c3 := CloseStep(c2, 1, f, product, reason);
    assert c3.lots == [d] && c3.remaining == 1 && c3.exitCharges == -0.0001;
    var c4 := CloseStep(c3, 1, f, product, reason);
    assert c4.remaining == 0 && c4.closed[3].Charges() == -0.0001;
    assert CloseAll(c0, 1, f, product, reason) == CloseAll(c1, 1, f, product, reason)
        == CloseAll(c2, 1, f, product, reason) == CloseAll(c3, 1, f, product, reason) == c4;
  }

  function FreeLot(q: Quantity): Lot { Lot(q, 1.0, 0.0, 0, "d", "s", "f") }

  function FourLots(): seq<Lot> { [FreeLot(34), FreeLot(34), FreeLot(137), FreeLot(1)] }

  lemma PaisaShares(f: Fill)
    requires f.quantity == 206 && f.charges == 0.01
    ensures Share(f.charges, 34, f.quantity) == 0.0017 && Share(f.charges, 137, f.quantity) == 0.0067
  {
    hide Quantize;
    QuantizeAt(0.01 * 34.0 / 206.0, 16, 0.01 * 34.0 / 206.0 * 10000.0 - 16.0);
    QuantizeAt(0.01 * 137.0 / 206.0, 66, 0.01 * 137.0 / 206.0 * 10000.0 - 66.0);
  }

  // What a caller can work out before the fill, from the open lots and the fill alone.

  /** On the 0.0001 grid, as charges rounded to the paisa are. */
  predicate OnGrid(x: real) { (x * 10000.0).Floor as real == x * 10000.0 }

  /**
   What the last piece of a fill is charged, or, when the lots run out, what the flipped lot carries:
   the fill's charges less the rounded shares of the lots it uses up, plus the last lot's own share.
   */
  function LastCharge(lots: seq<Lot>, remaining: nat, exit: real, f: Fill): real {
    if remaining == 0 || lots == [] then exit
    else if remaining < lots[0].quantity then exit + Share(lots[0].charges, remaining, lots[0].quantity)
    else if remaining == lots[0].quantity then exit + lots[0].charges
    else LastCharge(lots[1..], remaining - lots[0].quantity, exit - Share(f.charges, lots[0].quantity, f.quantity), f)
  }

  predicate Against(l: Ledger, f: Fill) { l.direction == -f.side.Sign() }

  /** The fill closes the whole position and opens one the other way. */
  predicate Flips(l: Ledger, f: Fill) { Against(l, f) && Total(l.lots).quantity < f.quantity }

  predicate LastCovered(l: Ledger, f: Fill) { 0.0 <= LastCharge(l.lots, f.quantity, f.charges, f) }

  ghost predicate Charged(lots: seq<Lot>) { forall lot | lot in lots :: 0.0 <= lot.charges }

  ghost predicate Gridded(lots: seq<Lot>) { forall lot | lot in lots :: 0.0 <= lot.charges && OnGrid(lot.charges) }

  ghost predicate Accepted(pieces: seq<ClosedPiece>) { forall p | p in pieces :: 0.0 <= p.Charges() }

  lemma ShareNonNegative(charges: real, take: Quantity, whole: Quantity)
    requires 0.0 <= charges
    ensures 0.0 <= Share(charges, take, whole)
  {
    assert 0.0 <= charges * take as real / whole as real * 10000.0;
  }

  /** Rounding to the grid never passes a grid point. */
  lemma QuantizeBelow(x: real, n: int)
    requires x * 10000.0 <= n as real
    ensures Quantize(x) <= n as real / 10000.0 && OnGrid(Quantize(x))
  {
    var down := (x * 10000.0).Floor;
    var m := if x * 10000.0 - down as real < 0.5 || (x * 10000.0 - down as real == 0.5 && down % 2 == 0) then down else down + 1;
    assert m <= n;
    assert Quantize(x) == m as real / 10000.0;
    assert Quantize(x) * 10000.0 == m as real;
  }

  /** So part of a lot on the grid is never charged more than the lot, and what stays is on the grid. */
  lemma ShareOnGrid(charges: real, take: Quantity, whole: Quantity)
    requires 0.0 <= charges && OnGrid(charges) && take <= whole
    ensures OnGrid(Share(charges, take, whole)) && Share(charges, take, whole) <= charges
  {
    hide Quantize;
    var n := (charges * 10000.0).Floor;
    var x := charges * take as real / whole as real;
    assert x <= charges by { PartAtMost(charges, take, whole); }
    QuantizeBelow(x, n);
  }

  lemma PartAtMost(charges: real, take: Quantity, whole: Quantity)
    requires 0.0 <= charges && take <= whole
    ensures charges * take as real / whole as real <= charges
  {
    assert charges * take as real <= charges * whole as real;
    assert charges * whole as real / whole as real == charges;
  }

  lemma GridMinus(x: real, y: real)
    requires OnGrid(x) && OnGrid(y)
    ensures OnGrid(x - y)
  {
    assert (x - y) * 10000.0 == ((x * 10000.0).Floor - (y * 10000.0).Floor) as real;
  }

  /** Off the grid a sale of part of a lot can be charged more than the lot carries, and leaves it less than nothing. */
  lemma OffGridLotGoesNegative(f: Fill, product: Product, strategy: string, reason: string)
    requires f.side == Sell && f.quantity == 9
    ensures
      var l := Ledger([FreeLot(10).(charges := 0.00006)], 1, 0.0, None);
      var after := ApplyToLedger(l, f, product, strategy, reason).0;
      |after.lots| == 1 && after.lots[0].quantity == 1 && after.lots[0].charges == -0.00004
  {
    hide Gross, Quantize;
    QuantizeAt(0.00006 * 9.0 / 10.0, 0, 0.54);
    var c := Closing([FreeLot(10).(charges := 0.00006)], 9, f.charges, [], 0.0);
    var d := CloseStep(c, 1, f, product, reason);
    assert d.remaining == 0 && CloseAll(c, 1, f, product, reason) == d;
  }

  /** The step that finishes the fill charges its piece the last charge. */
  lemma LastStepAccepted(c: Closing, direction: int, f: Fill, product: Product, reason: string)
    requires c.lots != [] && 0 < c.remaining <= c.lots[0].quantity && Accepted(c.closed)
    ensures
      var d := CloseStep(c, direction, f, product, reason);
      && d.remaining == 0 && d.closed != []
      && (Accepted(d.closed) <==> 0.0 <= LastCharge(c.lots, c.remaining, c.exitCharges, f))
  {
    hide Share, Gross;
    var d := CloseStep(c, direction, f, product, reason);
    assert d.closed[|c.closed|] in d.closed;
    assert d.closed[|c.closed|].Charges() == LastCharge(c.lots, c.remaining, c.exitCharges, f);
  }

  /** A step that uses up a whole lot, and not the fill, has an acceptable piece. */
  lemma FullStepAccepted(c: Closing, direction: int, f: Fill, product: Product, reason: string)
    requires c.lots != [] && c.lots[0].quantity < c.remaining && Charged(c.lots) && Accepted(c.closed)
    ensures
      var lot, d := c.lots[0], CloseStep(c, direction, f, product, reason);
      && d.lots == c.lots[1..] && d.remaining == c.remaining - lot.quantity && d.closed != []
      && Charged(d.lots) && Accepted(d.closed)
      && d.exitCharges == c.exitCharges - Share(f.charges, lot.quantity, f.quantity)
  {
    hide Share, Gross;
    ShareNonNegative(f.charges, c.lots[0].quantity, f.quantity);
  }

  /**
   The closing loop over lots that carry no negative charges: its pieces are all accepted exactly
   when the lots run out or the last charge is not negative; and when they run out, what is left of
   the fill's charges is that last charge.
   */
  lemma {:induction false} CloseAllAccepted(c: Closing, direction: int, f: Fill, product: Product, reason: string)
    requires Charged(c.lots) && Accepted(c.closed) && 0 < c.remaining
    ensures
      var e, last := CloseAll(c, direction, f, product, reason), LastCharge(c.lots, c.remaining, c.exitCharges, f);
      && (Accepted(e.closed) <==> Total(c.lots).quantity < c.remaining || 0.0 <= last)
      && (Total(c.lots).quantity < c.remaining ==> 0 < e.remaining && e.lots == [] && e.exitCharges == last)
      && (c.remaining <= Total(c.lots).quantity ==> e.remaining == 0)
      && (c.lots != [] || c.closed != [] ==> e.closed != [])
    decreases |c.lots|
  {
    hide CloseStep, Share, Accepted, Charged;
    if c.lots != [] {
      var lot, d := c.lots[0], CloseStep(c, direction, f, product, reason);
      TotalNonNegative(c.lots[1..]);
      if c.remaining <= lot.quantity {
        LastStepAccepted(c, direction, f, product, reason);
        assert CloseAll(d, direction, f, product, reason) == d;
      } else {
        FullStepAccepted(c, direction, f, product, reason);
        CloseAllAccepted(d, direction, f, product, reason);
      }
    }
  }

  lemma {:induction false} TotalNonNegative(lots: seq<Lot>)
    ensures 0 <= Total(lots).quantity
  {
    if lots != [] {
      TotalNonNegative(lots[1..]);
    }
  }

  /** Over lots on the grid and a fill on the grid, what the loop leaves stays on it and not negative. */
  lemma {:induction false} CloseAllGridded(c: Closing, direction: int, f: Fill, product: Product, reason: string)
    requires Gridded(c.lots) && OnGrid(c.exitCharges) && OnGrid(f.charges)
    ensures
      var e := CloseAll(c, direction, f, product, reason);
      Gridded(e.lots) && (0 < e.remaining ==> OnGrid(e.exitCharges))
    decreases |c.lots|
  {
    hide Share, Gross, OnGrid;
    if c.lots != [] && c.remaining != 0 {
      var lot, d := c.lots[0], CloseStep(c, direction, f, product, reason);
      if c.remaining <= lot.quantity {
        assert CloseAll(d, direction, f, product, reason) == d;
        if c.remaining < lot.quantity {
          ShareOnGrid(lot.charges, c.remaining, lot.quantity);
          GridMinus(lot.charges, Share(lot.charges, c.remaining, lot.quantity));
        }
      } else {
        FillShareOnGrid(f, lot.quantity);
        GridMinus(c.exitCharges, Share(f.charges, lot.quantity, f.quantity));
        CloseAllGridded(d, direction, f, product, reason);
      }
    }
  }

  lemma FillShareOnGrid(f: Fill, take: Quantity)
    ensures OnGrid(Share(f.charges, take, f.quantity))
  {
    hide Quantize;
    var x := f.charges * take as real / f.quantity as real;
    QuantizeBelow(x, (x * 10000.0).Floor + 1);
  }

  /**
   Every piece of a fill gets charges its event accepts if and only if the fill does not end inside
   the position or its last charge is not negative: on lots without negative charges, nothing else
   can go wrong.
   */
  lemma FillAcceptedExactly(l: Ledger, f: Fill, product: Product, strategy: string, reason: string)
    requires l.Valid() && Charged(l.lots)
    ensures Accepted(ApplyToLedger(l, f, product, strategy, reason).1)
       <==> (!Against(l, f) || Flips(l, f) || LastCovered(l, f))
  {
    hide CloseAll, LastCharge;
    if Against(l, f) {
      CloseAllAccepted(Closing(l.lots, f.quantity, f.charges, [], l.realized), l.direction, f, product, reason);
    }
  }

  /**
   And the lots stay without negative charges, on the grid, if and only if the fill does not flip the
   position with less than nothing left of its charges.
   */
  lemma FillKeepsGriddedExactly(l: Ledger, f: Fill, product: Product, strategy: string, reason: string)
    requires l.Valid() && Gridded(l.lots) && OnGrid(f.charges)
    ensures Gridded(ApplyToLedger(l, f, product, strategy, reason).0.lots) <==> (!Flips(l, f) || LastCovered(l, f))
  {
    hide CloseAll, LastCharge, OnGrid;
    var after := ApplyToLedger(l, f, product, strategy, reason).0;
    if Against(l, f) {
      var start := Closing(l.lots, f.quantity, f.charges, [], l.realized);
      CloseAllAccepted(start, l.direction, f, product, reason);
      CloseAllGridded(start, l.direction, f, product, reason);
    }
    if Close(l, f, product, reason).remaining != 0 {
      assert after.lots[|after.lots| - 1] in after.lots;
    }
  }

  lemma {:induction false} CloseAllEntries(c: Closing, direction: int, f: Fill, product: Product, reason: string)
    requires forall lot | lot in c.lots :: 0.0 <= lot.charges
    requires forall p | p in c.closed :: 0.0 <= p.entryCharges
    ensures
      var e := CloseAll(c, direction, f, product, reason);
      && (forall p | p in e.closed :: 0.0 <= p.entryCharges)
      && |e.closed| <= |c.closed| + |c.lots|
    decreases c.remaining, |c.lots|
  {
    hide Share, Gross;
    if c.remaining != 0 && c.lots != [] {
      var d := CloseStep(c, direction, f, product, reason);
      var lot := c.lots[0];
      if c.remaining < lot.quantity {
        ShareNonNegative(lot.charges, c.remaining, lot.quantity);
        assert CloseAll(d, direction, f, product, reason) == d;
      } else {
        CloseAllEntries(d, direction, f, product, reason);
      }
    }
  }

  /**
   When no open lot carries negative charges and the fill's charges come to half a quantum per
   share for every open lot, every piece it closes has charges the event accepts.
   */
  lemma TradesRecordable(l: Ledger, f: Fill, product: Product, strategy: string, reason: string)
    requires forall lot | lot in l.lots :: 0.0 <= lot.charges
    requires |l.lots| as real * HALF_QUANTUM * f.quantity as real <= f.charges
    ensures forall p | p in ApplyToLedger(l, f, product, strategy, reason).1 :: 0.0 <= p.Charges()
  {
    hide CloseAll, NearShares, Total;
    CloseAllEntries(Closing(l.lots, f.quantity, f.charges, [], l.realized), l.direction, f, product, reason);
    ExitSharesNear(l, f, product, reason);
    ClosingRecordable(Close(l, f, product, reason), f, |l.lots|);
  }

  lemma ClosingRecordable(c: Closing, f: Fill, lots: nat)
    requires NearShares(c, f) && |c.closed| <= lots && forall p | p in c.closed :: 0.0 <= p.entryCharges
    requires lots as real * HALF_QUANTUM * f.quantity as real <= f.charges
    ensures forall p | p in c.closed :: 0.0 <= p.Charges()
  {
    hide Exact, NearShare;
    forall p | p in c.closed ensures 0.0 <= p.Charges() {
      var i :| 0 <= i < |c.closed| && c.closed[i] == p;
      assert NearShare(c, f, i);
      PieceRecordable(c, f, i, lots);
    }
  }

  lemma PieceRecordable(c: Closing, f: Fill, i: nat, lots: nat)
    requires i < |c.closed| <= lots && NearShare(c, f, i) && 0.0 <= c.closed[i].entryCharges
    requires lots as real * HALF_QUANTUM * f.quantity as real <= f.charges
    ensures 0.0 <= c.closed[i].Charges()
  {
    hide Exact;
    ExactAtLeast(f, c.closed[i].quantity, lots as real * HALF_QUANTUM);
    assert i as real * HALF_QUANTUM <= lots as real * HALF_QUANTUM;
  }

  lemma ExactAtLeast(f: Fill, n: Quantity, floor: real)
    requires 0.0 <= floor && floor * f.quantity as real <= f.charges
    ensures floor <= Exact(f, n)
  {
    assert f.charges <= f.charges * n as real;
    assert f.charges / f.quantity as real <= f.charges * n as real / f.quantity as real;
    assert floor == floor * f.quantity as real / f.quantity as real;
  }
}

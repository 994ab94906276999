/**
 The PositionBook of src/oms/position_book.py: cash and queues of lots that nothing but a fill changes.

 The functions say what a fill does to the book; the class below is the mutable book, each of
 whose methods is proved to compute them.
 */
module PositionBook {
  import opened Domain
  import opened Sums

  // ---- Values -------------------------------------------------------------------------------

  datatype Lot = Lot(
    quantity: Quantity,
    price: Price,
    charges: real,        // what its pieces have not been charged so far
    openedAt: int,
    decisionId: string,
    strategy: string,
    fillId: string)

  /** What a fill takes from one lot. Entry and exit shares of the charges are kept apart here. */
  datatype ClosedPiece = ClosedPiece(
    fillId: string,
    index: nat,           // with fillId: the trade id "fill#index"
    key: Key,
    side: Side,           // of the opening leg
    quantity: Quantity,
    entryPrice: Price,
    exitPrice: Price,
    entryTs: int,
    exitTs: int,
    gross: real,
    entryCharges: real,
    exitCharges: real,
    lotFillId: string,
    decisionId: string,
    exitDecisionId: string,
    strategy: string,
    exitReason: string)
  {
    function Charges(): real { entryCharges + exitCharges }
    function Net(): real { gross - entryCharges - exitCharges }
  }

  /** The book of one key: the source's _Book. */
  datatype Ledger = Ledger(lots: seq<Lot>, direction: int, realized: real, updatedAt: Option<int>) {
    ghost predicate Valid() {
      && direction in {-1, 0, 1}
      && (lots == [] <==> direction == 0)
    }

    function Quantity(): int { direction * Total(lots).quantity }
  }

  const EMPTY := Ledger([], 0, 0.0, None)

  datatype BookState = BookState(
    bookId: string,
    startingCash: real,
    cash: real,
    ledgers: map<Key, Ledger>,
    seen: set<string>)
  {
    ghost predicate Valid() { forall k | k in ledgers :: ledgers[k].Valid() }

    function LedgerAt(key: Key): Ledger { if key in ledgers then ledgers[key] else EMPTY }

    function QuantityAt(key: Key): int { LedgerAt(key).Quantity() }
  }

  datatype FillOutcome =
    | WrongBook                                   // the source raises ValueError
    | Outcome(position: Position, closed: seq<ClosedPiece>, duplicate: bool)

  /** Shares, cost and unallocated charges of a run of lots. */
  datatype Totals = Totals(quantity: int, cost: real, charges: real)

  function Total(lots: seq<Lot>): Totals {
    if lots == [] then Totals(0, 0.0, 0.0) else
      var rest := Total(lots[1..]);
      Totals(lots[0].quantity + rest.quantity,
             lots[0].price * lots[0].quantity as real + rest.cost,
             lots[0].charges + rest.charges)
  }

  /** Decimal.quantize(0.0001): the nearest multiple, ties to the even one. */
  function Quantize(x: real): real {
    var scaled := x * 10000.0;
    var down := scaled.Floor;
    var part := scaled - down as real;
    var nearest := if part < 0.5 || (part == 0.5 && down % 2 == 0) then down else down + 1;
    nearest as real / 10000.0
  }

  const HALF_QUANTUM := 0.00005

  /** A pro rata share of some charges, rounded to the allocation quantum. */
  function Share(charges: real, take: Quantity, whole: Quantity): real {
    Quantize(charges * take as real / whole as real)
  }

  function Gross(exitPrice: real, entryPrice: real, take: int, direction: int): real {
    (exitPrice - entryPrice) * take as real * direction as real
  }

  // ---- What one fill does -------------------------------------------------------------------

  /** The variables of the closing loop. */
  datatype Closing = Closing(
    lots: seq<Lot>,
    remaining: nat,
    exitCharges: real,
    closed: seq<ClosedPiece>,
    realized: real)

  function CloseStep(c: Closing, direction: int, f: Fill, product: Product, exitReason: string): Closing
    requires c.lots != [] && 0 < c.remaining
  {
    var lot := c.lots[0];
    var take := Min(c.remaining, lot.quantity);
    var entry :=
      if take == lot.quantity then lot.charges
      else Share(lot.charges, take, lot.quantity);
    var exit :=
      if take == c.remaining then c.exitCharges
      else Share(f.charges, take, f.quantity);
    var piece := ClosedPiece(
      f.fillId, |c.closed| + 1, Key(f.instrument, product), if 0 < direction then Buy else Sell,
      take, lot.price, f.price, lot.openedAt, f.ts,
      Gross(f.price, lot.price, take, direction), entry, exit,
      lot.fillId, lot.decisionId, f.decisionId, lot.strategy, exitReason);
    var rest :=
      if take == lot.quantity then c.lots[1..]
      else [lot.(quantity := lot.quantity - take, charges := lot.charges - entry)] + c.lots[1..];
    Closing(rest, c.remaining - take, c.exitCharges - exit, c.closed + [piece], c.realized + piece.Net())
  }

  function CloseAll(c: Closing, direction: int, f: Fill, product: Product, exitReason: string): Closing
    decreases c.remaining
  {
    if c.remaining == 0 || c.lots == [] then c
    else CloseAll(CloseStep(c, direction, f, product, exitReason), direction, f, product, exitReason)
  }

  /** The closing loop as run for a fill against a ledger; it does nothing when the sides agree. */
  function Close(l: Ledger, f: Fill, product: Product, exitReason: string): Closing {
    var start := Closing(l.lots, f.quantity, f.charges, [], l.realized);
    if l.direction == 0 || l.direction == f.side.Sign() then start
    else CloseAll(start, l.direction, f, product, exitReason)
  }

  function ApplyToLedger(l: Ledger, f: Fill, product: Product, strategy: string, exitReason: string)
    : (r: (Ledger, seq<ClosedPiece>))
  {
    var c := Close(l, f, product, exitReason);
    var direction := if c.lots == [] then 0 else l.direction;
    if c.remaining == 0 then (Ledger(c.lots, direction, c.realized, Some(f.ts)), c.closed)
    else
      var charges := if c.closed != [] then c.exitCharges else f.charges;
      var lot := Lot(c.remaining, f.price, charges, f.ts, f.decisionId, strategy, f.fillId);
      (Ledger(c.lots + [lot], f.side.Sign(), c.realized, Some(f.ts)), c.closed)
  }

  function PositionOf(bookId: string, key: Key, l: Ledger, now: int): Position {
    var t := Total(l.lots);
    var qty := l.Quantity();
    Position(bookId, key, qty,
             if qty == 0 || t.quantity == 0 then None else Some(t.cost / t.quantity as real),
             l.realized,
             if l.updatedAt.Some? then l.updatedAt.value else now)
  }

  function CashMove(f: Fill): real {
    var notional := f.price * f.quantity as real;
    if f.side.Buy? then -(notional + f.charges) else notional - f.charges
  }

  function ApplyFill(b: BookState, f: Fill, product: Product, strategy: string, exitReason: string)
    : (r: (BookState, FillOutcome))
  {
    if f.bookId != b.bookId then (b, WrongBook) else
      var key := Key(f.instrument, product);
      var l := b.LedgerAt(key);
      if f.fillId in b.seen then
        (b.(ledgers := b.ledgers[key := l]), Outcome(PositionOf(b.bookId, key, l, f.ts), [], true))
      else
        var (l', closed) := ApplyToLedger(l, f, product, strategy, exitReason);
        (b.(cash := b.cash + CashMove(f), ledgers := b.ledgers[key := l'], seen := b.seen + {f.fillId}),
         Outcome(PositionOf(b.bookId, key, l', f.ts), closed, false))
  }

  // ---- Reads ----------------------------------------------------------------------------------

  ghost function Realized(b: BookState): real {
    Sum(map k | k in b.ledgers :: b.ledgers[k].realized)
  }

  predicate HasMark(l: Ledger, key: Key, marks: map<string, real>) {
    l.Quantity() == 0 || key.instrument in marks
  }

  function MarkedValue(l: Ledger, key: Key, marks: map<string, real>): real
    requires HasMark(l, key, marks)
  {
    if l.Quantity() == 0 then 0.0 else l.Quantity() as real * marks[key.instrument]
  }

  ghost predicate HasMarks(b: BookState, marks: map<string, real>) {
    forall k | k in b.ledgers :: HasMark(b.ledgers[k], k, marks)
  }

  ghost function Marked(b: BookState, marks: map<string, real>): map<Key, real>
    requires HasMarks(b, marks)
  {
    map k | k in b.ledgers :: MarkedValue(b.ledgers[k], k, marks)
  }

  ghost function Equity(b: BookState, marks: map<string, real>): real
    requires HasMarks(b, marks)
  {
    b.cash + Sum(Marked(b, marks))
  }

  // ---- The mutable book -----------------------------------------------------------------------

  class Book {
    const bookId: string
    const startingCash: real
    var cash: real
    var ledgers: map<Key, Ledger>
    var seen: set<string>

    ghost function State(): BookState
      reads this
    {
      BookState(bookId, startingCash, cash, ledgers, seen)
    }

    constructor (bookId: string, startingCash: real)
      ensures State() == BookState(bookId, startingCash, startingCash, map[], {})
    {
      this.bookId, this.startingCash, cash := bookId, startingCash, startingCash;
      ledgers, seen := map[], {};
    }

    method Apply(f: Fill, product: Product, strategy: string, exitReason: string)
      returns (r: FillOutcome)
      modifies this
      ensures (State(), r) == ApplyFill(old(State()), f, product, strategy, exitReason)
    {
      hide ApplyToLedger, PositionOf;
      if f.bookId != bookId {
        return WrongBook;
      }
      var key := Key(f.instrument, product);
      var book := if key in ledgers then ledgers[key] else EMPTY;
      ledgers := ledgers[key := book];
      if f.fillId in seen {
        return Outcome(PositionOf(bookId, key, book, f.ts), [], true);
      }
      seen := seen + {f.fillId};
      var notional := f.price * f.quantity as real;
      if f.side.Buy? {
        cash := cash - (notional + f.charges);
      } else {
        cash := cash + (notional - f.charges);
      }

      var closed;
      book, closed := ReduceThenOpen(book, f, product, strategy, exitReason);
      ledgers := ledgers[key := book];
      assert ledgers == old(ledgers)[key := book];
      return Outcome(PositionOf(bookId, key, book, f.ts), closed, false);
    }

    /** The part of apply that works on one key's lots. */
    static method ReduceThenOpen(book: Ledger, f: Fill, product: Product, strategy: string, exitReason: string)
      returns (after: Ledger, closed: seq<ClosedPiece>)
      ensures (after, closed) == ApplyToLedger(book, f, product, strategy, exitReason)
    {
      var sign, direction := f.side.Sign(), book.direction;
      var c := Closing(book.lots, f.quantity, f.charges, [], book.realized);
      if direction != 0 && direction != sign {
        c := CloseLots(c, direction, f, product, exitReason);
        if c.lots == [] {
          direction := 0;
        }
      }
      var lots := c.lots;
      if c.remaining != 0 {
        direction := sign;
        var charges := if c.closed != [] then c.exitCharges else f.charges;
        lots := lots + [Lot(c.remaining, f.price, charges, f.ts, f.decisionId, strategy, f.fillId)];
      }
      return Ledger(lots, direction, c.realized, Some(f.ts)), c.closed;
    }

    /** The while loop of apply, FIFO over the lots. */
    static method CloseLots(start: Closing, direction: int, f: Fill, product: Product, exitReason: string)
      returns (c: Closing)
      ensures c == CloseAll(start, direction, f, product, exitReason)
    {
      c := start;
      while c.remaining != 0 && c.lots != []
        invariant CloseAll(c, direction, f, product, exitReason)
               == CloseAll(start, direction, f, product, exitReason)
        decreases c.remaining
      {
        var lot, rest := c.lots[0], c.lots[1..];
        var take := Min(c.remaining, lot.quantity);
        var entryAlloc, exitAlloc := lot.charges, c.exitCharges;
        if take != lot.quantity {
          entryAlloc := Share(lot.charges, take, lot.quantity);
          rest := [lot.(quantity := lot.quantity - take, charges := lot.charges - entryAlloc)] + rest;
        }
        if take != c.remaining {
          exitAlloc := Share(f.charges, take, f.quantity);
        }
        var gross := Gross(f.price, lot.price, take, direction);
        var piece := ClosedPiece(
          f.fillId, |c.closed| + 1, Key(f.instrument, product), if 0 < direction then Buy else Sell, take,
          lot.price, f.price, lot.openedAt, f.ts, gross, entryAlloc, exitAlloc, lot.fillId, lot.decisionId,
          f.decisionId, lot.strategy, exitReason);
        ghost var next := CloseStep(c, direction, f, product, exitReason);
        c := Closing(rest, c.remaining - take, c.exitCharges - exitAlloc, c.closed + [piece],
                     c.realized + (gross - entryAlloc - exitAlloc));
        assert c == next;
      }
    }

    /** None where the source raises KeyError for a missing mark. */
    method GetEquity(marks: map<string, real>) returns (r: Option<real>)
      ensures r == if HasMarks(State(), marks) then Some(Equity(State(), marks)) else None
    {
      var total, todo := 0.0, ledgers.Keys;
      ghost var done: map<Key, real> := map[];
      while todo != {}
        invariant todo <= ledgers.Keys && done.Keys == ledgers.Keys - todo
        invariant forall k | k in done :: HasMark(ledgers[k], k, marks)
        invariant forall k | k in done :: done[k] == MarkedValue(ledgers[k], k, marks)
        invariant total == Sum(done)
        decreases todo
      {
        var key :| key in todo;
        if !HasMark(ledgers[key], key, marks) {
          return None;
        }
        var value := MarkedValue(ledgers[key], key, marks);
        total := total + value;
        SumUpdate(done, key, value);
        done := done[key := value];
        todo := todo - {key};
      }
      assert done == Marked(State(), marks);
      return Some(cash + total);
    }
  }
}

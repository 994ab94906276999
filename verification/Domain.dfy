/** The value types of src/domain: sides, products, order states, intents, orders, fills. */
module Domain {

  datatype Option<+T> = None | Some(value: T)

  type Quantity = n: int | 0 < n witness 1
  type Price = r: real | 0.0 < r witness 1.0
  type Charges = r: real | 0.0 <= r witness 0.0

  datatype Side = Buy | Sell {
    function Sign(): int { if Buy? then 1 else -1 }
  }

  datatype Product = MIS | CNC | NRML | MTF

  /** The book keeps one net position per key. */
  datatype Key = Key(instrument: string, product: Product)

  datatype OrderStatus =
    | PENDING_NEW | SUBMITTED | UNKNOWN | OPEN | TRIGGER_PENDING | PARTIALLY_FILLED
    | PENDING_CANCEL | PENDING_MODIFY | FILLED | CANCELLED | REJECTED | EXPIRED
  {
    predicate IsTerminal() { FILLED? || CANCELLED? || REJECTED? || EXPIRED? }
  }

  datatype IntentKind = OpenRisk | IncreaseRisk | ReduceRisk | CloseRisk | FlattenRisk {
    predicate ReducesRisk() { ReduceRisk? || CloseRisk? || FlattenRisk? }
  }

  datatype Intent = Intent(
    intentId: string,
    decisionId: string,
    bookId: string,
    strategy: string,
    instrument: string,
    side: Side,
    kind: IntentKind,
    quantity: Option<Quantity>,
    product: Product,
    reason: string)
  {
    // The intent validator ties reduce_only to the kind.
    predicate ReduceOnly() { kind.ReducesRisk() }

    function PositionKey(): Key { Key(instrument, product) }
  }

  datatype Order = Order(
    coid: string,
    intent: Intent,
    quantity: Quantity,
    status: OrderStatus,
    brokerOrderId: Option<string>,
    filledQty: nat,
    avgFillPrice: Option<real>,
    submittedAt: int,
    version: nat)
  {
    function Remaining(): int { quantity - filledQty }
  }

  datatype Fill = Fill(
    fillId: string,
    coid: string,
    brokerOrderId: Option<string>,
    bookId: string,
    decisionId: string,
    instrument: string,
    side: Side,
    quantity: Quantity,
    price: Price,
    ts: int,
    charges: Charges)

  datatype Position = Position(
    bookId: string,
    key: Key,
    quantity: int,
    avgPrice: Option<real>,
    realized: real,
    updatedAt: int)

  function Min(a: int, b: int): int { if a < b then a else b }

  function Max(a: int, b: int): int { if a < b then b else a }

  function Abs(a: int): int { if a < 0 then -a else a }

  lemma ScaleKeepsOrder(a: real, b: real, unit: Price)
    ensures a <= b ==> a * unit <= b * unit
    ensures a < b ==> a * unit < b * unit
  {
  }

  /** Whole units of a quotient: no more than the amount, and one more would be. */
  lemma WholeUnits(amount: real, unit: Price)
    ensures (amount / unit).Floor as real * unit <= amount < (amount / unit).Floor as real * unit + unit
  {
    var q := amount / unit;
    var n := q.Floor as real;
    assert q * unit == amount && n <= q < n + 1.0;
    ScaleKeepsOrder(n, q, unit);
    ScaleKeepsOrder(q, n + 1.0, unit);
    assert n * unit <= amount < (n + 1.0) * unit == n * unit + unit;
  }
}

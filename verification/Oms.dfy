/**
 The OMS of src/oms/oms.py as a protocol: every step of the source between two awaits is one
 transition here, and any interleaving of them, with restarts anywhere, is a run.

 A step yields an Effect: the new orders and book, the events it emits, and whether it ended in
 an exception that the source lets out.
 */
module Oms {
  import opened Domain
  import opened Sums
  import opened PositionBook

  // ---- Events and state -----------------------------------------------------------------------

  datatype Event =
    | OrderSubmitted(order: Order)
    | OrderAcked(coid: string, bookId: string, brokerOrderId: string, status: OrderStatus)
    | OrderRejected(coid: string, bookId: string, reason: string)
    | OrderUnknown(coid: string, bookId: string)
    | OrderCancelled(coid: string, bookId: string, filledQty: nat)
    | OrderExpired(coid: string, bookId: string, filledQty: nat)
    | FillReceived(fill: Fill, orderStatus: OrderStatus, orderFilledQty: nat, orderAvgPrice: real)
    | PositionChanged(position: Position, fillId: string)
    | TradeClosed(bookId: string, piece: ClosedPiece)
    | ReconciliationResult(bookId: string, inSync: bool)
    | Alert(key: string)

  /** What the OMS holds in memory. */
  datatype Core = Core(orders: map<string, Order>, unknownChecks: map<string, nat>, book: BookState)

  /** Memory, the durable log, submissions awaiting the broker, and every order ever sent to it. */
  datatype State = State(core: Core, log: seq<Event>, inflight: set<string>, placed: seq<string>)

  datatype Effect = Effect(core: Core, events: seq<Event>, raised: bool) {
    /** The effect of doing this and then that. */
    function Then(next: Effect): Effect { Effect(next.core, events + next.events, next.raised) }
  }

  function NewCore(bookId: string, cash: real): Core { Core(map[], map[], BookState(bookId, cash, cash, map[], {})) }

  function NewState(bookId: string, cash: real): State { State(NewCore(bookId, cash), [], {}, []) }

  /** The broker's view of an order, as far as the OMS reads it. */
  datatype Snapshot = Snapshot(coid: string, brokerOrderId: string, filledQty: nat, status: OrderStatus)

  // ---- Status moves ---------------------------------------------------------------------------

  /** The _NEXT table. */
  predicate CanMove(current: OrderStatus, next: OrderStatus) {
    match current
    case PENDING_NEW => next in {SUBMITTED, REJECTED}
    case SUBMITTED =>
      next in {OPEN, TRIGGER_PENDING, REJECTED, UNKNOWN, PARTIALLY_FILLED, FILLED, CANCELLED, EXPIRED}
    case UNKNOWN => next in {OPEN, TRIGGER_PENDING, REJECTED, PARTIALLY_FILLED, FILLED, CANCELLED, EXPIRED}
    case TRIGGER_PENDING => next in {OPEN, PARTIALLY_FILLED, FILLED, PENDING_CANCEL, CANCELLED, EXPIRED}
    case OPEN => next in {PARTIALLY_FILLED, FILLED, PENDING_CANCEL, CANCELLED, EXPIRED}
    case PARTIALLY_FILLED => next in {PARTIALLY_FILLED, FILLED, PENDING_CANCEL, CANCELLED, EXPIRED}
    case PENDING_CANCEL => next in {CANCELLED, PARTIALLY_FILLED, FILLED}
    case PENDING_MODIFY => next in {OPEN, TRIGGER_PENDING, PARTIALLY_FILLED, FILLED}
    case _ => false
  }

  predicate Advances(current: OrderStatus, next: OrderStatus) {
    (next != current || next == PARTIALLY_FILLED) && CanMove(current, next)
  }

  /** _set: store the changed order with its version bumped. */
  function Put(c: Core, coid: string, o: Order): Core {
    c.(orders := c.orders[coid := o.(version := o.version + 1)])
  }

  /** _advance, not forced. */
  function Advance(c: Core, coid: string, next: OrderStatus): (c': Core)
    requires coid in c.orders
    ensures c'.orders.Keys == c.orders.Keys && c'.book == c.book
  {
    if Advances(c.orders[coid].status, next) then Put(c, coid, c.orders[coid].(status := next)) else c
  }

  function Without<K, V>(m: map<K, V>, k: K): map<K, V> { m - {k} }

  // ---- Submission -------------------------------------------------------------------------------

  /** What an order still holds of a position: its remaining quantity if it is a live reduce-only order on the key. */
  function Held(o: Order, key: Key): int {
    if o.intent.ReduceOnly() && o.intent.PositionKey() == key && !o.status.IsTerminal() then o.Remaining() else 0
  }

  function HeldBy(orders: map<string, Order>, key: Key): map<string, int> {
    map c | c in orders :: Held(orders[c], key)
  }

  ghost function Committed(orders: map<string, Order>, key: Key): int { Count(HeldBy(orders, key)) }

  ghost function Reducible(c: Core, intent: Intent): int {
    var position := c.book.QuantityAt(intent.PositionKey());
    if position == 0 || (0 < position) == intent.side.Buy? then 0
    else Max(0, Abs(position) - Committed(c.orders, intent.PositionKey()))
  }

  datatype Decision = Blocked(why: string) | Duplicate(order: Order) | Route(order: Order)

  /** _submit up to the broker call; `gate` is the gate's quantity, None when no gate is installed. */
  ghost function Decide(c: Core, intent: Intent, coid: string, quantity: Option<int>, gate: Option<int>, now: int)
    : Decision
  {
    if intent.bookId != c.book.bookId then Blocked("other book")
    else if gate.None? then Blocked("no risk gate")
    else if coid in c.orders then Duplicate(c.orders[coid])
    else
      var asked := if quantity.Some? then quantity else if intent.quantity.Some? then Some(intent.quantity.value) else None;
      var clipped :=
        if !intent.ReduceOnly() then asked
        else if asked.None? then Some(Reducible(c, intent))
        else Some(Min(asked.value, Reducible(c, intent)));
      if intent.ReduceOnly() && clipped.value <= 0 then Blocked("nothing left to reduce")
      else if gate.value <= 0 then Blocked("rejected by the gate")
      else
        var qty := if clipped.None? then gate.value else Min(clipped.value, gate.value);
        if qty <= 0 then Blocked("unsized")
        else Route(Order(coid, intent, qty, SUBMITTED, None, 0, None, now, 0))
  }

  datatype Placement = Acked(brokerOrderId: string, status: OrderStatus) | NotPlaced(reason: string) | OutcomeUnknown

  /** _submit after the broker call. */
  function PlaceReturned(c: Core, coid: string, outcome: Placement): Effect
    requires coid in c.orders
  {
    var o := c.orders[coid];
    match outcome
    case OutcomeUnknown =>
      var c' := Put(c, coid, o.(status := UNKNOWN));
      Effect(c'.(unknownChecks := c.unknownChecks[coid := 0]), [OrderUnknown(coid, o.intent.bookId)], false)
    case NotPlaced(reason) =>
      Effect(Put(c, coid, o.(status := REJECTED)), [OrderRejected(coid, o.intent.bookId, reason)], false)
    case Acked(brokerOrderId, status) =>
      if o.status != SUBMITTED then Effect(c, [], false)   // an update callback beat the response
      else
        var c' := Advance(Put(c, coid, o.(brokerOrderId := Some(brokerOrderId))), coid, status);
        Effect(c', [OrderAcked(coid, o.intent.bookId, brokerOrderId, c'.orders[coid].status)], false)
  }

  // ---- Broker callbacks ---------------------------------------------------------------------------

  function OnUpdate(c: Core, snap: Snapshot): Effect {
    if snap.coid !in c.orders then Effect(c, [Alert("oms_unknown_order")], false)
    else
      var o := c.orders[snap.coid];
      var c1 := if o.brokerOrderId.None? then Put(c, snap.coid, o.(brokerOrderId := Some(snap.brokerOrderId))) else c;
      if snap.status in {FILLED, PARTIALLY_FILLED} || !Advances(o.status, snap.status) then Effect(c1, [], false)
      else Effect(Advance(c1, snap.coid, snap.status), [UpdateEvent(snap, o.intent.bookId)], false)
  }

  function UpdateEvent(snap: Snapshot, bookId: string): Event {
    match snap.status
    case CANCELLED => OrderCancelled(snap.coid, bookId, snap.filledQty)
    case EXPIRED => OrderExpired(snap.coid, bookId, snap.filledQty)
    case REJECTED => OrderRejected(snap.coid, bookId, "BROKER_REJECTED")
    case _ => OrderAcked(snap.coid, bookId, snap.brokerOrderId, snap.status)
  }

  /** Python's `a or b` on an optional id: the empty string does not count. */
  function OrElse(a: Option<string>, b: Option<string>): Option<string> {
    if a.Some? && a.value != "" then a else b
  }

  function FilledAfter(o: Order, f: Fill): nat { Min(o.filledQty + f.quantity, o.quantity) }

  function AvgAfter(o: Order, f: Fill): real {
    var prior := (if o.avgFillPrice.Some? then o.avgFillPrice.value else 0.0) * o.filledQty as real;
    (prior + f.price * f.quantity as real) / (o.filledQty + f.quantity) as real
  }

  function StatusAfter(o: Order, f: Fill): OrderStatus {
    if FilledAfter(o, f) == o.quantity then FILLED else PARTIALLY_FILLED
  }

  /** The order after a fill: _set, then a forced _advance. */
  function FilledOrder(o: Order, f: Fill): Order {
    o.(filledQty := FilledAfter(o, f),
       avgFillPrice := Some(AvgAfter(o, f)),
       brokerOrderId := OrElse(f.brokerOrderId, o.brokerOrderId),
       status := StatusAfter(o, f))
  }

  function PutFilled(c: Core, o: Order, f: Fill): Core {
    var bump := if StatusAfter(o, f) == o.status && o.status != PARTIALLY_FILLED then 0 else 1;
    Put(c, f.coid, FilledOrder(o, f).(version := o.version + bump))
  }

  /** The pieces whose TradeClosed event can be built: it refuses negative charges. */
  function Recordable(closed: seq<ClosedPiece>): seq<ClosedPiece> {
    if closed == [] || closed[0].Charges() < 0.0 then [] else [closed[0]] + Recordable(closed[1..])
  }

  function TradeEvents(bookId: string, closed: seq<ClosedPiece>): seq<Event> {
    seq(|closed|, i requires 0 <= i < |closed| => TradeClosed(bookId, closed[i]))
  }

  function BookFill(b: BookState, f: Fill, intent: Intent): (BookState, FillOutcome) {
    ApplyFill(b, f, intent.product, intent.strategy, intent.reason)
  }

  function BookStray(b: BookState, f: Fill): (BookState, FillOutcome) { ApplyFill(b, f, CNC, "unknown", "") }

  function OnFill(c: Core, f: Fill): (e: Effect)
    ensures e.core.orders.Keys == c.orders.Keys
  {
    if f.fillId in c.book.seen then Effect(c, [], false)
    else if f.coid !in c.orders then OnStrayFill(c, f)
    else OnOrderFill(c, f)
  }

  /** No such order here: the fill is booked as CNC all the same, with an alert. */
  function OnStrayFill(c: Core, f: Fill): Effect {
    var (book, outcome) := BookStray(c.book, f);
    var alert := [Alert("oms_unknown_fill")];
    if outcome.WrongBook? then Effect(c, alert, true)
    else
      Effect(c.(book := book),
             alert + [FillReceived(f, FILLED, f.quantity, f.price), PositionChanged(outcome.position, f.fillId)],
             false)
  }

  function OnOrderFill(c: Core, f: Fill): Effect
    requires f.coid in c.orders
  {
    var o := c.orders[f.coid];
    var alerts := if o.filledQty + f.quantity > o.quantity then [Alert("oms_overfill")] else [];
    var c1 := PutFilled(c, o, f);
    var (book, outcome) := BookFill(c.book, f, o.intent);
    if outcome.WrongBook? then Effect(c1, alerts, true)   // the order has already changed
    else
      var trades := Recordable(outcome.closed);
      Effect(c1.(book := book),
             alerts + [FillReceived(f, StatusAfter(o, f), FilledAfter(o, f), AvgAfter(o, f)),
                       PositionChanged(outcome.position, f.fillId)]
                    + TradeEvents(c.book.bookId, trades),
             |trades| < |outcome.closed|)
  }

  /** _adopt_fills: those not seen yet, one by one, until one raises. */
  function AdoptFills(c: Core, fills: seq<Fill>): (e: Effect)
    ensures e.core.orders.Keys == c.orders.Keys
    decreases |fills|
  {
    if fills == [] then Effect(c, [], false) else
      var first := OnFill(c, fills[0]);
      if first.raised then first else first.Then(AdoptFills(first.core, fills[1..]))
  }

  // ---- UNKNOWN resolution ---------------------------------------------------------------------------

  function TagFound(c: Core, coid: string, brokerOrderId: string): Effect
    requires coid in c.orders
  {
    Effect(Put(c, coid, c.orders[coid].(brokerOrderId := Some(brokerOrderId))), [], false)
  }

  /** The rest of the branch, once get_trades has answered. */
  function TagResolved(c: Core, snap: Snapshot, trades: seq<Fill>): Effect
    requires snap.coid in c.orders
  {
    var adopted := AdoptFills(c, trades);
    if adopted.raised then adopted
    else adopted.Then(AckFound(adopted.core, snap, c.orders[snap.coid].intent.bookId))
  }

  function AckFound(c: Core, snap: Snapshot, bookId: string): Effect
    requires snap.coid in c.orders
  {
    var c' :=
      if c.orders[snap.coid].status.IsTerminal() || snap.status in {FILLED, PARTIALLY_FILLED} then c
      else Advance(c, snap.coid, snap.status);
    Effect(c'.(unknownChecks := Without(c'.unknownChecks, snap.coid)),
           [OrderAcked(snap.coid, bookId, snap.brokerOrderId, c'.orders[snap.coid].status)], false)
  }

  function TagAbsent(c: Core, coid: string, now: int, timeout: int): Effect
    requires coid in c.orders
  {
    var o := c.orders[coid];
    var checks := (if coid in c.unknownChecks then c.unknownChecks[coid] else 0) + 1;
    if 2 <= checks && timeout <= now - o.submittedAt then
      var c' := Put(c, coid, o.(status := REJECTED));
      Effect(c'.(unknownChecks := Without(c.unknownChecks, coid)),
             [OrderRejected(coid, o.intent.bookId, "NOT_FOUND_AT_BROKER")], false)
    else Effect(c.(unknownChecks := c.unknownChecks[coid := checks]), [], false)
  }

  function Reconcile(c: Core, trades: seq<Fill>, inSync: bool): Effect {
    var adopted := AdoptFills(c, trades);
    if adopted.raised then adopted
    else adopted.Then(Effect(
      adopted.core,
      [ReconciliationResult(c.book.bookId, inSync)] + if inSync then [] else [Alert("SYS_RECON_DRIFT")],
      false))
  }

  // ---- Restart ----------------------------------------------------------------------------------------

  function RestoreEvent(c: Core, e: Event): Core {
    match e
    case OrderSubmitted(order) =>
      if order.intent.bookId != c.book.bookId then c else c.(orders := c.orders[order.coid := order])
    case FillReceived(f, _, _, _) => if f.bookId != c.book.bookId then c else RestoreFill(c, e)
    case OrderAcked(coid, bookId, brokerOrderId, status) => RestoreAck(c, coid, bookId, brokerOrderId, status)
    case OrderUnknown(coid, bookId) =>
      if coid !in c.orders || bookId != c.book.bookId then c
      else Put(c, coid, c.orders[coid].(status := UNKNOWN)).(unknownChecks := c.unknownChecks[coid := 0])
    case OrderRejected(coid, bookId, _) => RestoreTerminal(c, coid, bookId, REJECTED)
    case OrderCancelled(coid, bookId, _) => RestoreTerminal(c, coid, bookId, CANCELLED)
    case OrderExpired(coid, bookId, _) => RestoreTerminal(c, coid, bookId, EXPIRED)
    case _ => c
  }

  function RestoreAck(c: Core, coid: string, bookId: string, brokerOrderId: string, status: OrderStatus): Core {
    if coid !in c.orders || bookId != c.book.bookId then c
    else
      var o := c.orders[coid];
      var c' :=
        if !o.status.IsTerminal() then Put(c, coid, o.(brokerOrderId := Some(brokerOrderId), status := status))
        else if o.brokerOrderId.None? then Put(c, coid, o.(brokerOrderId := Some(brokerOrderId)))
        else c;
      c'.(unknownChecks := Without(c.unknownChecks, coid))
  }

  function RestoreTerminal(c: Core, coid: string, bookId: string, status: OrderStatus): Core {
    if coid !in c.orders || bookId != c.book.bookId then c
    else Put(c, coid, c.orders[coid].(status := status)).(unknownChecks := Without(c.unknownChecks, coid))
  }

  function RestoreFill(c: Core, e: Event): Core
    requires e.FillReceived?
  {
    var f := e.fill;
    if f.coid !in c.orders then c.(book := BookStray(c.book, f).0)
    else
      var o := c.orders[f.coid];
      Put(c, f.coid, o.(filledQty := e.orderFilledQty, avgFillPrice := Some(e.orderAvgPrice), status := e.orderStatus,
                brokerOrderId := OrElse(f.brokerOrderId, o.brokerOrderId)))
        .(book := BookFill(c.book, f, o.intent).0)
  }

  /** The loop of restore. */
  function Replay(c: Core, log: seq<Event>): Core {
    if log == [] then c else RestoreEvent(Replay(c, log[..|log| - 1]), log[|log| - 1])
  }

  /** restore on a fresh OMS. */
  function Restore(bookId: string, cash: real, log: seq<Event>): Core { Replay(NewCore(bookId, cash), log) }

  // ---- Runs -------------------------------------------------------------------------------------------

  datatype Step =
    | Submit(intent: Intent, coid: string, quantity: Option<int>, gate: Option<int>, now: int)
    | Placed(coid: string, outcome: Placement)
    | Update(snap: Snapshot)
    | FillArrived(fill: Fill)
    | TagLookup(coid: string, brokerOrderId: string)
    | TagTrades(snap: Snapshot, trades: seq<Fill>)
    | TagMissing(coid: string, now: int, timeout: int)
    | Reconciliation(trades: seq<Fill>, inSync: bool)
    | Restart

  /** A step that names an order the OMS does not hold, or a placement it is not awaiting, cannot happen. */
  ghost function StepEffect(s: State, step: Step): Effect {
    var c := s.core;
    var nothing := Effect(c, [], false);
    match step
    case Submit(intent, coid, quantity, gate, now) =>
      var d := Decide(c, intent, coid, quantity, gate, now);
      if d.Route? then Effect(c.(orders := c.orders[coid := d.order]), [OrderSubmitted(d.order)], false) else nothing
    case Placed(coid, outcome) =>
      if coid in s.inflight && coid in c.orders then PlaceReturned(c, coid, outcome) else nothing
    case Update(snap) => OnUpdate(c, snap)
    case FillArrived(f) => OnFill(c, f)
    case TagLookup(coid, id) => if coid in c.orders then TagFound(c, coid, id) else nothing
    case TagTrades(snap, trades) => if snap.coid in c.orders then TagResolved(c, snap, trades) else nothing
    case TagMissing(coid, now, timeout) => if coid in c.orders then TagAbsent(c, coid, now, timeout) else nothing
    case Reconciliation(trades, inSync) => Reconcile(c, trades, inSync)
    case Restart => Effect(Restore(c.book.bookId, c.book.startingCash, s.log), [], false)
  }

  ghost function Next(s: State, step: Step): State {
    var e := StepEffect(s, step);
    var routed := step.Submit? && e.events != [];
    State(e.core,
          s.log + e.events,
          if step.Restart? then {} else if routed then s.inflight + {step.coid}
          else if step.Placed? then s.inflight - {step.coid} else s.inflight,
          if routed then s.placed + [step.coid] else s.placed)
  }

  ghost function Run(s: State, steps: seq<Step>): State {
    if steps == [] then s else Next(Run(s, steps[..|steps| - 1]), steps[|steps| - 1])
  }
}

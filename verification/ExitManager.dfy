/**
 The exit manager of src/oms/exit_manager.py as the OMS's fill listener: what it manages is what the
 book holds, and its stops only ever trail upwards.
 */
module ExitManager {
  import opened Domain
  import opened PositionBook
  import opened Oms
  import opened OmsRestart
  import opened OmsSafety
  import opened BookReport
  import opened Pnl
  import opened TradeRecord
  import OmsOnce

  // ---- State --------------------------------------------------------------------------------------------

  datatype Policy = Policy(
    kStop: real,
    kTarget: real,
    kTrail: Option<real>,
    maxHold: int,
    tick: string -> Price,     // an instrument's tick size
    dayOf: int -> int)         // the IST date of an instant

  /** The ATR and lineage announced for an entry order. */
  datatype Pending = Pending(atr: Price, strategy: string, decisionId: string, barDate: int)

  datatype Managed = Managed(
    pending: Pending,
    entryPrice: real,
    quantity: int,
    stop: real,
    target: real,
    rDistance: real,
    enteredOn: int,
    highestClose: real,
    partialTaken: bool,
    stopCoid: Option<string>,
    stopVersion: nat,
    closing: bool)

  datatype Exits = Exits(positions: map<Key, Managed>, pending: map<string, Pending>, stale: set<Key>)

  // ---- Fills --------------------------------------------------------------------------------------------

  function FloorToTick(price: real, tick: Price): real { (price / tick).Floor as real * tick }

  function CeilToTick(price: real, tick: Price): real { -FloorToTick(-price, tick) }

  /** So many ATRs. */
  function Away(factor: real, atr: real): real { factor * atr }

  /** _levels: stop rounded down and at least one tick, target rounded up. */
  function Levels(policy: Policy, entry: real, atr: real, instrument: string): (real, real) {
    var tick := policy.tick(instrument);
    var stop := FloorToTick(entry - Away(policy.kStop, atr), tick);
    (if stop < tick then tick else stop, CeilToTick(entry + Away(policy.kTarget, atr), tick))
  }

  /** _on_entry_fill, with the book as it is after the fill. */
  function OnEntryFill(x: Exits, policy: Policy, f: Fill, o: Order, book: BookState): Exits {
    var key := o.intent.PositionKey();
    if f.coid !in x.pending && key !in x.positions then x   // unmanaged: no stop, an alert
    else
      var pending := if f.coid in x.pending then x.pending[f.coid] else x.positions[key].pending;
      var avg := PositionOf(book.bookId, key, book.LedgerAt(key), f.ts).avgPrice;
      var entry := if avg.Some? then avg.value else f.price;
      var (stop, target) := Levels(policy, entry, pending.atr, o.intent.instrument);
      var managed := Managed(pending, entry, book.QuantityAt(key), stop, target, entry - stop,
                            policy.dayOf(f.ts), entry, false, None, 0, false);
      var kept :=
        if key !in x.positions then managed
        else
          var p := x.positions[key];
          managed.(enteredOn := p.enteredOn, partialTaken := p.partialTaken, stopCoid := p.stopCoid,
                  stopVersion := p.stopVersion);
      Exits(x.positions[key := kept],
            if o.status.IsTerminal() then x.pending - {f.coid} else x.pending,
            x.stale + {key})
  }

  /** _on_fill: the listener, called with the order and the book after the fill. */
  function OnListen(x: Exits, policy: Policy, f: Fill, o: Order, book: BookState): Exits {
    var key := o.intent.PositionKey();
    var held := book.QuantityAt(key);
    if !o.intent.ReduceOnly() then OnEntryFill(x, policy, f, o, book)
    else if key !in x.positions then x
    else if held <= 0 then x.(positions := x.positions - {key})
    else
      var p := x.positions[key];
      x.(positions := x.positions[key := p.(quantity := held, partialTaken := p.partialTaken || o.intent.reason == "partial")],
         stale := x.stale + {key})
  }

  /** What the listener sees of one fill: nothing when it is a repeat, stray, or ends in an exception. */
  function Listen(x: Exits, policy: Policy, c: Core, f: Fill): Exits {
    var e := OnFill(c, f);
    if f.fillId in c.book.seen || f.coid !in c.orders || e.raised then x
    else OnListen(x, policy, f, e.core.orders[f.coid], e.core.book)
  }

  function ListenAll(x: Exits, policy: Policy, c: Core, fills: seq<Fill>): Exits
    decreases |fills|
  {
    if fills == [] then x
    else
      var x1 := Listen(x, policy, c, fills[0]);
      if OnFill(c, fills[0]).raised then x1 else ListenAll(x1, policy, OnFill(c, fills[0]).core, fills[1..])
  }

  // ---- Agreement with the book --------------------------------------------------------------------------

  ghost predicate Agrees(x: Exits, book: BookState) {
    forall k | k in x.positions :: 0 < x.positions[k].quantity == book.QuantityAt(k)
  }

  /** The listener hears of the fill, or manages nothing there. */
  ghost predicate Noticed(x: Exits, c: Core, f: Fill) {
    f.fillId !in c.book.seen ==> Chargeable(c, f) || (f.coid in c.orders && c.orders[f.coid].intent.PositionKey() !in x.positions)
  }

  /**
   After a fair fill the manager agrees with the book if and only if the fill was chargeable or its
   position is not managed: otherwise the fill escapes as an exception after the book has moved and
   before the listener is called.
   */
  lemma ListenAgreesExactly(x: Exits, policy: Policy, c: Core, f: Fill)
    requires Agrees(x, c.book) && Covered(c.orders, c.book) && GriddedBook(c.book) && FairFill(c, f) && UnseenGridded(c, f)
    ensures Agrees(Listen(x, policy, c, f), OnFill(c, f).core.book) <==> Noticed(x, c, f)
  {
    if f.fillId !in c.book.seen {
      FairFillRecordedExactly(c, f);
      FillRaisesExactly(c, f);
      FillMovesOne(c, f);
      hide GriddedBook, UnseenGridded, Recorded, Chargeable, OnFill, FairFill;
      var o, e := c.orders[f.coid], OnFill(c, f);
      if !e.raised {
        OnListenAgrees(x, policy, f, e.core.orders[f.coid], c.book, e.core.book);
      } else {
        assert Listen(x, policy, c, f) == x;
      }
    }
  }

  /** What a fair fill changes in the book: its order's position, by its quantity. */
  lemma FillMovesOne(c: Core, f: Fill)
    requires Covered(c.orders, c.book) && FairFill(c, f) && f.fillId !in c.book.seen
    ensures
      var o, e := c.orders[f.coid], OnFill(c, f);
      var key := o.intent.PositionKey();
      && e.core.orders[f.coid].intent == o.intent
      && (forall k: Key | k != key :: e.core.book.QuantityAt(k) == c.book.QuantityAt(k))
      && e.core.book.QuantityAt(key) != c.book.QuantityAt(key)
      && (!o.intent.ReduceOnly() ==> 0 < e.core.book.QuantityAt(key))
  {
    var o, e := c.orders[f.coid], OnFill(c, f);
    var key := o.intent.PositionKey();
    BookAfterFill(c, f);
    assert e.core.orders[f.coid].intent == o.intent by { hide ApplyToLedger, PositionOf, AvgAfter, Recordable, TradeEvents; }
    hide OnFill, Committed, ApplyFill;
    assert LongOnly(o);
    CommittedNonNegative(c.orders, key);
    assert Committed(c.orders, key) <= c.book.QuantityAt(key);
    forall k: Key
      ensures e.core.book.QuantityAt(k) == c.book.QuantityAt(k) + if k == key then f.side.Sign() * f.quantity else 0
    {
      BookedQuantity(c.book, f, o.intent.product, o.intent.strategy, o.intent.reason, k);
    }
  }

  lemma OnListenAgrees(x: Exits, policy: Policy, f: Fill, o: Order, before: BookState, after: BookState)
    requires Agrees(x, before)
    requires forall k: Key | k != o.intent.PositionKey() :: after.QuantityAt(k) == before.QuantityAt(k)
    requires !o.intent.ReduceOnly() ==> 0 < after.QuantityAt(o.intent.PositionKey())
    ensures Agrees(OnListen(x, policy, f, o, after), after)
  {
    hide PositionOf, Levels;
  }

  /** Every fill of a list that is reached is noticed; the first to raise ends the list. */
  ghost predicate NoticedAll(x: Exits, policy: Policy, c: Core, fills: seq<Fill>)
    decreases |fills|
  {
    fills != [] ==>
      && Noticed(x, c, fills[0])
      && (OnFill(c, fills[0]).raised || NoticedAll(Listen(x, policy, c, fills[0]), policy, OnFill(c, fills[0]).core, fills[1..]))
  }

  lemma {:induction false} ListenAllAgreesExactly(x: Exits, policy: Policy, c: Core, fills: seq<Fill>)
    requires Agrees(x, c.book) && Covered(c.orders, c.book) && GriddedBook(c.book)
    requires FairFills(c, fills) && GriddedFills(c, fills)
    ensures Agrees(ListenAll(x, policy, c, fills), AdoptFills(c, fills).core.book) <==> NoticedAll(x, policy, c, fills)
    decreases |fills|
  {
    if fills != [] {
      ListenAgreesExactly(x, policy, c, fills[0]);
      UnnoticedRaises(x, c, fills[0]);
      FillKeepsCovered(c, fills[0]);
      FairFillRecordedExactly(c, fills[0]);
      hide OnFill, Listen, Agrees, Covered, FairFill, Recorded, Chargeable, GriddedBook, UnseenGridded, Noticed;
      var first := OnFill(c, fills[0]);
      if !first.raised {
        ListenAllAgreesExactly(Listen(x, policy, c, fills[0]), policy, first.core, fills[1..]);
      }
    }
  }

  /** A fill that goes unnoticed raised, so nothing after it in the list repairs the damage. */
  lemma UnnoticedRaises(x: Exits, c: Core, f: Fill)
    requires Covered(c.orders, c.book) && GriddedBook(c.book) && FairFill(c, f) && UnseenGridded(c, f)
    ensures !Noticed(x, c, f) ==> OnFill(c, f).raised
  {
    if f.fillId !in c.book.seen {
      FairFillRecordedExactly(c, f);
      FillRaisesExactly(c, f);
    }
  }

  // ---- What a fill sets ------------------------------------------------------------------------------------

  function Ticks(n: int, tick: Price): real { n as real * tick }

  ghost predicate WholeTicks(x: real, tick: Price) { exists n: int :: x == Ticks(n, tick) }

  lemma FloorIsNear(price: real, tick: Price)
    ensures FloorToTick(price, tick) <= price < FloorToTick(price, tick) + tick
    ensures WholeTicks(FloorToTick(price, tick), tick) && WholeTicks(-FloorToTick(price, tick), tick)
  {
    WholeUnits(price, tick);
    var n := (price / tick).Floor;
    assert FloorToTick(price, tick) == n as real * tick;
    Multiples(n, tick);
    hide FloorToTick, WholeTicks;
  }

  lemma Multiples(n: int, tick: Price)
    ensures WholeTicks(n as real * tick, tick) && WholeTicks(-(n as real * tick), tick)
  {
    assert n as real * tick == Ticks(n, tick);
    assert -(n as real * tick) == Ticks(-n, tick);
  }

  /** Stop and target stand off the entry by their own factors, to the tick: the stop no nearer, the target no nearer either. */
  lemma LevelsAre(policy: Policy, entry: real, atr: real, instrument: string)
    ensures
      var (stop, target) := Levels(policy, entry, atr, instrument);
      var tick, below := policy.tick(instrument), entry - policy.kStop * atr;
      && WholeTicks(stop, tick) && WholeTicks(target, tick) && tick <= stop
      && (tick <= below ==> stop <= below < stop + tick)
      && (below < tick ==> stop == tick)
      && target - tick < entry + policy.kTarget * atr <= target
  {
    var tick, below, above := policy.tick(instrument), entry - Away(policy.kStop, atr), entry + Away(policy.kTarget, atr);
    assert below == entry - policy.kStop * atr && above == entry + policy.kTarget * atr;
    hide FloorToTick, CeilToTick, WholeTicks, Away;
    StopIs(below, tick);
    TargetIs(above, tick);
  }

  lemma StopIs(below: real, tick: Price)
    ensures
      var floor := FloorToTick(below, tick);
      var stop := if floor < tick then tick else floor;
      && WholeTicks(stop, tick) && tick <= stop
      && (tick <= below ==> stop <= below < stop + tick) && (below < tick ==> stop == tick)
  {
    FloorIsNear(below, tick);
    FloorAtLeastTick(below, tick);
    Multiples(1, tick);
    assert 1 as real * tick == tick;
    hide FloorToTick, WholeTicks;
  }

  lemma TargetIs(above: real, tick: Price)
    ensures var target := CeilToTick(above, tick); WholeTicks(target, tick) && target - tick < above <= target
  {
    FloorIsNear(-above, tick);
    hide FloorToTick, WholeTicks;
  }

  lemma FloorAtLeastTick(price: real, tick: Price)
    ensures tick <= price ==> tick <= FloorToTick(price, tick)
    ensures price < tick ==> FloorToTick(price, tick) < tick
  {
    WholeUnits(price, tick);
    if tick <= price {
      assert 1 <= (price / tick).Floor by { ScaleKeepsOrder(price / tick, 1.0, tick); }
      ScaleKeepsOrder(1.0, (price / tick).Floor as real, tick);
    }
  }

  /**
   The managed position after an entry fill: the book's size and average, levels a policy's distance
   away, the announced lineage or the held one, and, when it was managed already, its entry date,
   partial flag and stop order; nothing else moves.
   */
  lemma EntryManaged(x: Exits, policy: Policy, f: Fill, o: Order, book: BookState)
    requires f.coid in x.pending || o.intent.PositionKey() in x.positions
    requires book.LedgerAt(o.intent.PositionKey()).Valid()
    ensures
      var key := o.intent.PositionKey();
      var x' := OnEntryFill(x, policy, f, o, book);
      && key in x'.positions && x'.stale == x.stale + {key}
      && (forall k | k != key :: k in x'.positions <==> k in x.positions)
      && (forall k | k != key && k in x.positions :: x'.positions[k] == x.positions[k])
      && (f.coid in x'.pending <==> f.coid in x.pending && !o.status.IsTerminal())
      && var p := x'.positions[key];
         var tick, below := policy.tick(key.instrument), p.entryPrice - policy.kStop * p.pending.atr;
         && p.quantity == book.QuantityAt(key) && !p.closing && p.highestClose == p.entryPrice
         && (p.quantity == 0 ==> p.entryPrice == f.price)
         && (forall mark: real | p.quantity != 0 ::
               (mark - p.entryPrice) * p.quantity as real == LotGains(book.LedgerAt(key).lots, book.LedgerAt(key).direction, mark))
         && p.pending == (if f.coid in x.pending then x.pending[f.coid] else x.positions[key].pending)
         && p.rDistance == p.entryPrice - p.stop && WholeTicks(p.stop, tick) && WholeTicks(p.target, tick)
         && (if tick <= below then p.stop <= below < p.stop + tick else p.stop == tick)
         && p.target - tick < p.entryPrice + policy.kTarget * p.pending.atr <= p.target
         && (if key in x.positions then
               var was := x.positions[key];
               p.enteredOn == was.enteredOn && p.partialTaken == was.partialTaken
                 && p.stopCoid == was.stopCoid && p.stopVersion == was.stopVersion
             else p.enteredOn == policy.dayOf(f.ts) && !p.partialTaken && p.stopCoid.None? && p.stopVersion == 0)
  {
    hide Levels, PositionOf, WholeTicks, LotGains;
    var key := o.intent.PositionKey();
    var p := OnEntryFill(x, policy, f, o, book).positions[key];
    LevelsAre(policy, p.entryPrice, p.pending.atr, key.instrument);
    EntryPriceIs(book, key, f);
    hide *;
  }

  /** The entry price taken from the book: the fill's when flat, else the average, which stands for the lots. */
  lemma EntryPriceIs(book: BookState, key: Key, f: Fill)
    requires book.LedgerAt(key).Valid()
    ensures
      var l, avg := book.LedgerAt(key), PositionOf(book.bookId, key, book.LedgerAt(key), f.ts).avgPrice;
      var entry := if avg.Some? then avg.value else f.price;
      && (book.QuantityAt(key) == 0 ==> entry == f.price)
      && (forall mark: real | book.QuantityAt(key) != 0 ::
            (mark - entry) * book.QuantityAt(key) as real == LotGains(l.lots, l.direction, mark))
  {
    hide PositionOf, LotGains;
    AverageStandsForLots(book.bookId, key, book.LedgerAt(key), f.ts, 0.0);
    forall mark: real
      ensures
        var l, avg := book.LedgerAt(key), PositionOf(book.bookId, key, book.LedgerAt(key), f.ts).avgPrice;
        book.QuantityAt(key) != 0 ==>
          (mark - if avg.Some? then avg.value else f.price) * book.QuantityAt(key) as real == LotGains(l.lots, l.direction, mark)
    {
      AverageStandsForLots(book.bookId, key, book.LedgerAt(key), f.ts, mark);
    }
  }

  /** An exit fill drops a position that is gone, and otherwise resizes it, notes a partial, and asks for its stop again. */
  lemma ExitListened(x: Exits, policy: Policy, f: Fill, o: Order, book: BookState)
    requires o.intent.ReduceOnly()
    ensures
      var key, held := o.intent.PositionKey(), book.QuantityAt(o.intent.PositionKey());
      var x' := OnListen(x, policy, f, o, book);
      && x'.pending == x.pending && (forall k | k != key :: k in x'.positions <==> k in x.positions)
      && (forall k | k != key && k in x.positions :: x'.positions[k] == x.positions[k])
      && (key in x'.positions <==> key in x.positions && 0 < held)
      && (key in x'.positions ==>
            && key in x'.stale
            && var p, was := x'.positions[key], x.positions[key];
               p == was.(quantity := held, partialTaken := p.partialTaken)
               && (p.partialTaken <==> was.partialTaken || o.intent.reason == "partial"))
  {
  }

  // ---- Every run ------------------------------------------------------------------------------------------

  /** The fills a step takes: none when a resolution names an order the OMS does not hold. */
  function Taken(s: State, step: Step): seq<Fill> {
    if step.TagTrades? && step.snap.coid !in s.core.orders then [] else FillsOf(step)
  }

  /** The manager after a step of the OMS it listens to. */
  function Follow(x: Exits, policy: Policy, s: State, step: Step): Exits { ListenAll(x, policy, s.core, Taken(s, step)) }

  ghost function FollowRun(policy: Policy, x: Exits, s: State, steps: seq<Step>): Exits {
    if steps == [] then x else
      var init := steps[..|steps| - 1];
      Follow(FollowRun(policy, x, s, init), policy, Run(s, init), steps[|steps| - 1])
  }

  lemma StepAgreesExactly(x: Exits, policy: Policy, s: State, step: Step)
    requires Agrees(x, s.core.book) && Covered(s.core.orders, s.core.book) && GriddedBook(s.core.book)
    requires Fair(s, step) && Synced(s) && GriddedFills(s.core, FillsOf(step))
    ensures Agrees(Follow(x, policy, s, step), Next(s, step).core.book) <==> NoticedAll(x, policy, s.core, Taken(s, step))
  {
    FairStepFills(s, step);
    StepTakes(s, step);
    NoListening(x, policy, s.core);
    hide Agrees, Covered, GriddedBook, Next, Synced, Fair, FairFills, GriddedFills, ListenAll, NoticedAll, AdoptFills;
    if Taken(s, step) == [] {
      NothingNoticed(x, policy, s.core);
    } else {
      ListenAllAgreesExactly(x, policy, s.core, FillsOf(step));
    }
  }

  lemma NothingNoticed(x: Exits, policy: Policy, c: Core)
    ensures NoticedAll(x, policy, c, [])
  {
  }

  /** A step's book is its fills adopted, or what it was. */
  lemma StepTakes(s: State, step: Step)
    requires Synced(s)
    ensures
      var b := Next(s, step).core.book;
      b == if Taken(s, step) == [] then s.core.book else AdoptFills(s.core, FillsOf(step)).core.book
  {
    hide AdoptFills, Advances, Without;
    match step
    case FillArrived(f) => hide OnFill, Synced; OneAdopted(s.core, f);
    case TagTrades(snap, trades) =>
      hide Synced, AckFound;
      if snap.coid in s.core.orders { ResolvedBook(s.core, snap, trades); NoneAdopted(s.core); }
    case Reconciliation(trades, _) => hide Synced; NoneAdopted(s.core);
    case Restart => hide Replay;
    case Submit(_, _, _, _, _) => hide Synced, Reducible;
    case _ => hide Synced; OmsOnce.QuietStep(s, step); hide StepEffect;
  }

  lemma NoListening(x: Exits, policy: Policy, c: Core)
    ensures ListenAll(x, policy, c, []) == x
  {
  }

  /** After every step so far, the manager agrees with the book. */
  ghost predicate AgreesThroughout(policy: Policy, x: Exits, s: State, steps: seq<Step>) {
    steps != [] ==>
      && AgreesThroughout(policy, x, s, steps[..|steps| - 1])
      && Agrees(FollowRun(policy, x, s, steps), Run(s, steps).core.book)
  }

  /** Every fill the run reaches is noticed. */
  ghost predicate NoticedRun(policy: Policy, x: Exits, s: State, steps: seq<Step>) {
    steps != [] ==>
      var init, step := steps[..|steps| - 1], steps[|steps| - 1];
      && NoticedRun(policy, x, s, init)
      && NoticedAll(FollowRun(policy, x, s, init), policy, Run(s, init).core, Taken(Run(s, init), step))
  }

  /**
   In every fair long-only run whose charges are on the grid, restarts included: every position the
   manager holds has exactly the book's quantity, and it is positive, after every step, if and only
   if every fill that is reached was chargeable on arrival or closed a position nobody manages.
   */
  lemma {:induction false} ManagedMatchesBook(policy: Policy, bookId: string, cash: real, steps: seq<Step>, x: Exits)
    requires FairRun(NewState(bookId, cash), steps) && GriddedRun(NewState(bookId, cash), steps) && x.positions == map[]
    ensures AgreesThroughout(policy, x, NewState(bookId, cash), steps) <==> NoticedRun(policy, x, NewState(bookId, cash), steps)
    ensures AgreesThroughout(policy, x, NewState(bookId, cash), steps) ==>
      Agrees(FollowRun(policy, x, NewState(bookId, cash), steps), Run(NewState(bookId, cash), steps).core.book)
  {
    if steps != [] {
      hide Next, Synced, Covered, Agrees, Fair, Follow, GriddedBook, GriddedFills, NoticedAll;
      var init, step := steps[..|steps| - 1], steps[|steps| - 1];
      var s, x1 := Run(NewState(bookId, cash), init), FollowRun(policy, x, NewState(bookId, cash), init);
      ManagedMatchesBook(policy, bookId, cash, init, x);
      FairRunCovered(bookId, cash, init);
      RecordedExactly(bookId, cash, init);
      if AgreesThroughout(policy, x, NewState(bookId, cash), init) {
        StepAgreesExactly(x1, policy, s, step);
      }
    }
  }

  /** In particular whenever every fill is chargeable as it arrives. */
  lemma {:induction false} ChargeableNoticed(policy: Policy, x: Exits, s: State, steps: seq<Step>)
    requires ChargeableRun(s, steps)
    ensures NoticedRun(policy, x, s, steps)
  {
    if steps != [] {
      hide Run;
      var init, step := steps[..|steps| - 1], steps[|steps| - 1];
      ChargeableNoticed(policy, x, s, init);
      ChargeableAllNoticed(policy, FollowRun(policy, x, s, init), Run(s, init).core, FillsOf(step));
      NothingNoticed(FollowRun(policy, x, s, init), policy, Run(s, init).core);
    }
  }

  lemma {:induction false} ChargeableAllNoticed(policy: Policy, x: Exits, c: Core, fills: seq<Fill>)
    requires ChargeableAll(c, fills)
    ensures NoticedAll(x, policy, c, fills)
    decreases |fills|
  {
    hide OnFill, Listen, Chargeable;
    if fills != [] {
      ChargeableAllNoticed(policy, Listen(x, policy, c, fills[0]), OnFill(c, fills[0]).core, fills[1..]);
    }
  }

  // ---- Stops ----------------------------------------------------------------------------------------------

  /** What a session start tells the manager about one position. */
  datatype Session = Session(
    heldSessions: int,
    accepted: bool,              // whether a time exit is accepted
    close: Option<real>,
    atr: Option<real>)

  /** A reduce-only stop order still working for the position. */
  datatype LiveStop = LiveStop(coid: string, remaining: int, trigger: real)

  /** The trailing update of on_session_start. */
  function Trail(policy: Policy, p: Managed, instrument: string, close: Option<real>, atr: Option<real>): Managed {
    var high := if close.Some? && p.highestClose < close.value then close.value else p.highestClose;
    var stop :=
      if policy.kTrail.None? then p.stop
      else
        var trail := FloorToTick(high - Away(policy.kTrail.value, if atr.Some? then atr.value else p.pending.atr), policy.tick(instrument));
        if p.stop < trail then trail else p.stop;
    p.(highestClose := high, stop := stop, stopCoid := None)
  }

  /** One position through on_session_start: a time exit, or a trailed stop that must be placed again. */
  function SessionStart(policy: Policy, p: Managed, instrument: string, s: Session): Managed {
    if p.closing then p
    else if policy.maxHold <= s.heldSessions then p.(stopCoid := None, closing := s.accepted)
    else Trail(policy, p, instrument, s.close, s.atr)
  }

  /** Whether the position then waits for refresh_stops. */
  predicate NeedsStop(policy: Policy, p: Managed, s: Session) {
    !p.closing && (s.heldSessions < policy.maxHold || !s.accepted)
  }

  predicate Adopts(p: Managed, live: Option<LiveStop>) {
    p.stopCoid.None? && live.Some? && live.value.remaining == p.quantity && live.value.trigger != 0.0
  }

  /**
   refresh_stops for one waiting position: adopt a live stop of its size, else send a new one; `placed`
   is the order's id when it was accepted. The price never changes except by adopting.
   */
  function Refresh(p: Managed, live: Option<LiveStop>, placed: Option<string>): Managed {
    if p.closing || p.quantity <= 0 then p
    else if Adopts(p, live) then p.(stopCoid := Some(live.value.coid), stop := live.value.trigger)
    else p.(stopVersion := p.stopVersion + 1, stopCoid := if placed.Some? then placed else p.stopCoid)
  }

  /** Whether it waits on. */
  predicate StillStale(p: Managed, live: Option<LiveStop>, placed: Option<string>) {
    !p.closing && 0 < p.quantity && !Adopts(p, live) && placed.None?
  }

  /** The session start of a position, and its turn in the refresh that follows. */
  function StartAndRefresh(
    policy: Policy, p: Managed, instrument: string, s: Session, live: Option<LiveStop>, placed: Option<string>): Managed
  {
    var p1 := SessionStart(policy, p, instrument, s);
    if NeedsStop(policy, p, s) then Refresh(p1, live, placed) else p1
  }

  /**
   A session start: a position at its hold limit exits, keeping its price; another keeps the highest
   close it has seen and a stop no lower than before, raised exactly to the trailing distance below
   it, to the tick, when that is higher and trailing is on. Either way the old stop order is let go.
   */
  lemma SessionStartIs(policy: Policy, p: Managed, instrument: string, s: Session)
    requires !p.closing
    ensures
      var q, tick := SessionStart(policy, p, instrument, s), policy.tick(instrument);
      var high := if s.close.Some? && p.highestClose < s.close.value then s.close.value else p.highestClose;
      var atr := if s.atr.Some? then s.atr.value else p.pending.atr;
      && q.stopCoid.None? && q.quantity == p.quantity && q.target == p.target
      && (policy.maxHold <= s.heldSessions ==>
            q.closing == s.accepted && q.stop == p.stop && q.highestClose == p.highestClose)
      && (s.heldSessions < policy.maxHold ==>
            && !q.closing && q.highestClose == high && p.stop <= q.stop
            && (policy.kTrail.None? ==> q.stop == p.stop)
            && (policy.kTrail.Some? ==>
                  var trail := high - policy.kTrail.value * atr;
                  && (p.stop < q.stop ==> WholeTicks(q.stop, tick) && q.stop <= trail < q.stop + tick)
                  && (q.stop == p.stop ==> trail < p.stop + tick)))
  {
    var high := if s.close.Some? && p.highestClose < s.close.value then s.close.value else p.highestClose;
    var atr := if s.atr.Some? then s.atr.value else p.pending.atr;
    if policy.kTrail.Some? {
      var trail := high - Away(policy.kTrail.value, atr);
      assert trail == high - policy.kTrail.value * atr;
      FloorIsNear(trail, policy.tick(instrument));
      hide FloorToTick, WholeTicks, Away;
    }
  }

  /** A refresh adopts or sends, never both: only a new order raises the version, and its id is kept when accepted. */
  lemma RefreshIs(p: Managed, live: Option<LiveStop>, placed: Option<string>)
    ensures
      var q := Refresh(p, live, placed);
      && q.quantity == p.quantity && q.highestClose == p.highestClose && q.target == p.target && q.closing == p.closing
      && (p.closing || p.quantity <= 0 ==> q == p)
      && (!p.closing && 0 < p.quantity ==>
            if q.stopVersion == p.stopVersion then
              p.stopCoid.None? && live.Some? && q.stopCoid == Some(live.value.coid) && q.stop == live.value.trigger
                && live.value.remaining == p.quantity
            else
              && q.stopVersion == p.stopVersion + 1 && q.stop == p.stop
              && (placed.Some? ==> q.stopCoid == placed) && (placed.None? ==> q.stopCoid == p.stopCoid)
              && (p.stopCoid.None? && live.Some? ==> live.value.remaining != p.quantity || live.value.trigger == 0.0))
      && (StillStale(p, live, placed) <==> q.stopVersion != p.stopVersion && placed.None?)
  {
  }

  /** A session start lowers the stop exactly when it adopts a live stop of the same size with a lower trigger. */
  lemma StopFallsExactly(
    policy: Policy, p: Managed, instrument: string, s: Session, live: Option<LiveStop>, placed: Option<string>)
    requires 0 < p.quantity
    ensures StartAndRefresh(policy, p, instrument, s, live, placed).stop < p.stop <==>
      && !p.closing && (s.heldSessions < policy.maxHold || !s.accepted)
      && live.Some? && live.value.remaining == p.quantity && live.value.trigger != 0.0 && live.value.trigger < p.stop
  {
    hide FloorToTick;
  }

  /**
   A stop that did not expire undoes the trail, exactly when it has the position's size and triggers
   below the price just trailed to; the highest close keeps its raise either way.
   */
  lemma LiveStopUndoesTrail(
    policy: Policy, p: Managed, instrument: string, s: Session, live: Option<LiveStop>, placed: Option<string>)
    requires 0 < p.quantity && !p.closing && s.heldSessions < policy.maxHold
    ensures
      var q, trailed := StartAndRefresh(policy, p, instrument, s, live, placed), Trail(policy, p, instrument, s.close, s.atr);
      && q.highestClose == trailed.highestClose
      && (q.stop < trailed.stop <==>
            && live.Some? && live.value.remaining == p.quantity && live.value.trigger != 0.0
            && live.value.trigger < trailed.stop)
      && (q.stop != trailed.stop ==> live.Some? && q.stop == live.value.trigger)
  {
    hide FloorToTick;
  }

  // ---- The mutable manager ----------------------------------------------------------------------------------

  class Manager {
    const policy: Policy
    const book: Book
    var positions: map<Key, Managed>
    var pending: map<string, Pending>
    var stale: set<Key>

    ghost function Model(): Exits
      reads this
    {
      Exits(positions, pending, stale)
    }

    constructor (policy: Policy, book: Book)
      ensures Model() == Exits(map[], map[], {})
      ensures this.book == book
    {
      this.policy, this.book := policy, book;
      positions, pending, stale := map[], map[], {};
    }

    method ExpectEntry(coid: string, entry: Pending)
      modifies this
      ensures Model() == Exits(old(positions), old(pending)[coid := entry], old(stale))
    {
      pending := pending[coid := entry];
    }

    /** The listener, after the OMS has booked the fill. */
    method OnFill(f: Fill, order: Order)
      requires order.coid == f.coid
      modifies this
      ensures Model() == OnListen(old(Model()), policy, f, order, book.State())
    {
      hide PositionOf, Levels;
      var key := order.intent.PositionKey();
      var ledger := if key in book.ledgers then book.ledgers[key] else EMPTY;
      var held := ledger.Quantity();
      if !order.intent.ReduceOnly() {
        EntryFill(f, order, key, ledger);
        return;
      }
      if key !in positions {
        return;
      }
      if held <= 0 {
        positions := positions - {key};
      } else {
        var p := positions[key].(quantity := held);
        if order.intent.reason == "partial" {
          p := p.(partialTaken := true);
        }
        positions := positions[key := p];
        stale := stale + {key};
      }
    }

    method EntryFill(f: Fill, order: Order, key: Key, ledger: Ledger)
      requires order.coid == f.coid && key == order.intent.PositionKey() && ledger == book.State().LedgerAt(key)
      modifies this
      ensures Model() == OnEntryFill(old(Model()), policy, f, order, book.State())
    {
      hide PositionOf, Levels;
      var announced: Pending;
      if f.coid in pending {
        announced := pending[f.coid];
      } else if key in positions {
        announced := positions[key].pending;   // adding to a managed position
      } else {
        return;
      }
      var avg := PositionOf(book.bookId, key, ledger, f.ts).avgPrice;
      var entry := if avg.Some? then avg.value else f.price;
      var (stop, target) := Levels(policy, entry, announced.atr, order.intent.instrument);
      var p := Managed(announced, entry, ledger.Quantity(), stop, target, entry - stop, policy.dayOf(f.ts), entry,
                       false, None, 0, false);
      if key in positions {
        var was := positions[key];
        p := p.(enteredOn := was.enteredOn, partialTaken := was.partialTaken, stopCoid := was.stopCoid,
                stopVersion := was.stopVersion);
      }
      positions := positions[key := p];
      if order.status.IsTerminal() {
        pending := pending - {f.coid};
      }
      stale := stale + {key};
    }

    /** Every managed position through the session start; those left without a stop join the waiting. */
    method OnSessionStart(sessions: map<Key, Session>)
      requires positions.Keys <= sessions.Keys
      modifies this
      ensures positions.Keys == old(positions).Keys && pending == old(pending)
      ensures forall k | k in positions ::
        positions[k] == SessionStart(policy, old(positions)[k], k.instrument, sessions[k])
      ensures stale == old(stale) + set k | k in positions && NeedsStop(policy, old(positions)[k], sessions[k])
    {
      hide SessionStart, NeedsStop;
      var todo := positions.Keys;
      while todo != {}
        invariant todo <= positions.Keys == old(positions).Keys && pending == old(pending)
        invariant forall k | k in todo :: positions[k] == old(positions)[k]
        invariant forall k | k in positions && k !in todo ::
          positions[k] == SessionStart(policy, old(positions)[k], k.instrument, sessions[k])
        invariant stale == old(stale)
          + set k | k in positions && k !in todo && NeedsStop(policy, old(positions)[k], sessions[k])
        decreases todo
      {
        var k :| k in todo;
        var p := positions[k];
        positions := positions[k := SessionStart(policy, p, k.instrument, sessions[k])];
        if NeedsStop(policy, p, sessions[k]) {
          stale := stale + {k};
        }
        todo := todo - {k};
      }
    }

    /** Every waiting position through the refresh; those not placed or adopted wait on. */
    method RefreshStops(live: map<Key, LiveStop>, placed: map<Key, string>)
      modifies this
      ensures positions.Keys == old(positions).Keys && pending == old(pending)
      ensures forall k | k in positions ::
        positions[k] == if k in old(stale) then Refresh(old(positions)[k], At(live, k), At(placed, k)) else old(positions)[k]
      ensures stale == set k | k in old(stale) && k in positions && StillStale(old(positions)[k], At(live, k), At(placed, k))
    {
      hide Refresh, StillStale, At;
      var todo := stale;
      while todo != {}
        invariant positions.Keys == old(positions).Keys && pending == old(pending) && todo <= old(stale)
        invariant forall k | k in positions ::
          positions[k] == if k in old(stale) && k !in todo
                          then Refresh(old(positions)[k], At(live, k), At(placed, k)) else old(positions)[k]
        invariant stale == todo
          + set k | k in old(stale) && k !in todo && k in positions && StillStale(old(positions)[k], At(live, k), At(placed, k))
        decreases todo
      {
        var k :| k in todo;
        todo := todo - {k};
        if k !in positions {
          stale := stale - {k};
        } else {
          var p := positions[k];
          positions := positions[k := Refresh(p, At(live, k), At(placed, k))];
          if !StillStale(p, At(live, k), At(placed, k)) {
            stale := stale - {k};
          }
        }
      }
    }
  }

  function At<V>(m: map<Key, V>, k: Key): Option<V> { if k in m then Some(m[k]) else None }
}

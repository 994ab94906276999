/**
 A concrete fair run after which the exit manager still manages a position the book no longer has: an
 entry filled in four parts, closed by one fill whose last piece is charged less than nothing.
 */
module LostExit {
  import opened Domain
  import Sums
  import opened PositionBook
  import opened BookCharges
  import opened Oms
  import opened OmsRestart
  import opened OmsSafety
  import opened Pnl
  import opened ExitManager

  const KEY := Key("X", CNC)

  function Entry(): Intent { Intent("e", "d", "b", "s", "X", Buy, OpenRisk, Some(206), CNC, "entry") }

  function Exit(): Intent { Intent("x", "d", "b", "s", "X", Sell, CloseRisk, None, CNC, "stop") }

  function Bought(id: string, q: Quantity): Fill { Fill(id, "e", None, "b", "d", "X", Buy, q, 1.0, 0, 0.0) }

  /** Fill ids, told apart by their length. */
  function Id(i: nat): string { seq(i + 1, _ => 'f') }

  function Sold(): Fill { Fill(Id(4), "x", None, "b", "d", "X", Sell, 206, 1.0, 0, 0.01) }

  /** The lot a part of the entry leaves. */
  function Part(id: string, q: Quantity): Lot { Lot(q, 1.0, 0.0, 0, "d", "s", id) }

  function Size(i: nat): Quantity { if i < 2 then 34 else if i == 2 then 137 else 1 }

  function Filled(n: nat): nat { if n == 0 then 0 else Filled(n - 1) + Size(n - 1) }

  function PartsTo(n: nat): seq<Lot> { seq(n, i requires 0 <= i => Part(Id(i), Size(i))) }

  function Parts(): seq<Lot> { PartsTo(4) }

  ghost function SeenTo(n: nat): set<string> { set i: nat | i < n :: Id(i) }

  lemma NotSeen(n: nat, i: nat)
    requires n <= i
    ensures Id(i) !in SeenTo(n)
    ensures SeenTo(n + 1) == SeenTo(n) + {Id(n)}
  {
    forall j: nat | j < n ensures Id(j) != Id(i) {
      assert |Id(j)| != |Id(i)|;
    }
  }

  // ---- The last fill ---------------------------------------------------------------------------------------

  /** The last charge of the closing fill: a hundred quanta less 17, 17 and 67. */
  lemma LastIsNegative()
    ensures LastCharge(Parts(), 206, 0.01, Sold()) == -0.0001
  {
    PaisaShares(Sold());
    hide Share;
    var lots := Parts();
    assert lots[1..] == [lots[1], lots[2], lots[3]] && lots[1..][1..] == [lots[2], lots[3]] && lots[1..][1..][1..] == [lots[3]];
    assert LastCharge([lots[3]], 1, -0.0001, Sold()) == -0.0001;
  }

  /** With these lots in the book the fill is fair, escapes as an exception, and empties the position all the same. */
  lemma ExitEscapes(c: Core)
    requires GriddedBook(c.book) && c.book.bookId == "b" && Id(4) !in c.book.seen
    requires KEY in c.book.ledgers && c.book.ledgers[KEY].lots == Parts() && c.book.ledgers[KEY].direction == 1
    requires "x" in c.orders && c.orders["x"].intent == Exit() && c.orders["x"].quantity == 206
    requires c.orders["x"].filledQty == 0 && c.orders["x"].status == SUBMITTED
    ensures FairFill(c, Sold()) && OnFill(c, Sold()).raised
    ensures c.book.QuantityAt(KEY) == 206 && OnFill(c, Sold()).core.book.QuantityAt(KEY) == 0
  {
    LastIsNegative();
    assert Total(Parts()).quantity == 206 by { PartsTotal(); }
    FillRaisesExactly(c, Sold());
    BookAfterFill(c, Sold());
    BookedQuantity(c.book, Sold(), CNC, "s", "stop", KEY);
    hide OnFill, ApplyFill, LastCharge, Parts, Total;
  }

  lemma PartsTotal()
    ensures Total(Parts()).quantity == 206
  {
    var lots := Parts();
    assert lots[1..] == [lots[1], lots[2], lots[3]] && lots[1..][1..] == [lots[2], lots[3]] && lots[1..][1..][1..] == [lots[3]];
  }

  // ---- The run ---------------------------------------------------------------------------------------------

  /** The entry's order after some of it has filled, up to its average price and version. */
  ghost predicate Filling(o: Order, filled: nat) {
    && o.intent == Entry() && o.quantity == 206 && o.filledQty == filled
    && o.status == (if filled == 0 then SUBMITTED else if filled == 206 then FILLED else PARTIALLY_FILLED)
  }

  /** The OMS and the manager after the entry has filled as far as these lots. */
  ghost predicate Holds(s: State, x: Exits, lots: seq<Lot>, filled: nat, seen: set<string>) {
    && s.core.book.bookId == "b" && s.core.book.seen == seen && s.core.orders.Keys == {"e"} && Filling(s.core.orders["e"], filled)
    && s.core.book.ledgers.Keys == (if lots == [] then {} else {KEY})
    && (lots != [] ==> s.core.book.ledgers[KEY].lots == lots && s.core.book.ledgers[KEY].direction == 1)
    && (filled < 206 ==> "e" in x.pending)
    && (lots != [] ==> KEY in x.positions && x.positions[KEY].quantity == s.core.book.QuantityAt(KEY))
  }

  function Start(): Exits { Exits(map[], map["e" := Pending(1.0, "s", "d", 0)], {}) }

  function EntryStep(): Step { Submit(Entry(), "e", None, Some(206), 0) }

  function ExitStep(): Step { Submit(Exit(), "x", None, Some(206), 0) }

  lemma EntryHolds(policy: Policy)
    ensures
      var s := Next(NewState("b", 0.0), EntryStep());
      Holds(s, Follow(Start(), policy, NewState("b", 0.0), EntryStep()), [], 0, {})
  {
    hide Reducible;
  }

  /** One more part of the entry: a fair fill that adds a lot and is listened to. */
  lemma PartHolds(policy: Policy, s: State, x: Exits, lots: seq<Lot>, filled: nat, seen: set<string>, id: string, q: Quantity)
    requires Holds(s, x, lots, filled, seen) && id !in seen && filled + q <= 206
    ensures
      var step := FillArrived(Bought(id, q));
      && Fair(s, step)
      && Holds(Next(s, step), Follow(x, policy, s, step), lots + [Part(id, q)], filled + q, seen + {id})
  {
    var f, step := Bought(id, q), FillArrived(Bought(id, q));
    PartBooked(s.core, f, lots);
    PartListened(policy, x, s.core, f);
    hide OnFill, Listen;
    assert FillsOf(step) == [f];
    OneListened(policy, x, s.core, f);
  }

  lemma PartBooked(c: Core, f: Fill, lots: seq<Lot>)
    requires c.book.bookId == "b" && f.fillId !in c.book.seen && "e" in c.orders && c.orders["e"].intent == Entry()
    requires f == Bought(f.fillId, f.quantity) && c.orders["e"].filledQty + f.quantity <= c.orders["e"].quantity
    requires c.book.ledgers.Keys == (if lots == [] then {} else {KEY})
    requires lots != [] ==> c.book.ledgers[KEY].lots == lots && c.book.ledgers[KEY].direction == 1
    ensures
      var e := OnFill(c, f);
      && !e.raised && e.core.orders.Keys == c.orders.Keys
      && e.core.orders["e"].intent == Entry() && e.core.orders["e"].quantity == c.orders["e"].quantity
      && e.core.orders["e"].filledQty == c.orders["e"].filledQty + f.quantity
      && e.core.orders["e"].status == StatusAfter(c.orders["e"], f)
      && e.core.book.bookId == "b" && e.core.book.seen == c.book.seen + {f.fillId} && e.core.book.ledgers.Keys == {KEY}
      && e.core.book.ledgers[KEY].lots == lots + [Part(f.fillId, f.quantity)] && e.core.book.ledgers[KEY].direction == 1
  {
    hide PositionOf, AvgAfter, CloseAll;
  }

  lemma PartListened(policy: Policy, x: Exits, c: Core, f: Fill)
    requires f.fillId !in c.book.seen && f.coid == "e" && "e" in c.orders && "e" in x.pending && !OnFill(c, f).raised
    requires OnFill(c, f).core.orders["e"].intent == Entry()
    ensures
      var x' := Listen(x, policy, c, f);
      && KEY in x'.positions && x'.positions[KEY].quantity == OnFill(c, f).core.book.QuantityAt(KEY)
      && (!OnFill(c, f).core.orders["e"].status.IsTerminal() ==> "e" in x'.pending)
  {
    hide OnFill, PositionOf, Levels;
  }

  lemma OneListened(policy: Policy, x: Exits, c: Core, f: Fill)
    ensures ListenAll(x, policy, c, [f]) == Listen(x, policy, c, f)
  {
    hide Listen, OnFill;
    assert [f][1..] == [];
  }

  // ---- From the start --------------------------------------------------------------------------------------

  /** A fair run of the OMS leads to this state, and the manager listening to it is then this. */
  ghost predicate Reached(policy: Policy, s: State, x: Exits) {
    exists steps: seq<Step> ::
      FairRun(NewState("b", 0.0), steps) && Run(NewState("b", 0.0), steps) == s
      && FollowRun(policy, Start(), NewState("b", 0.0), steps) == x
  }

  lemma StartReached(policy: Policy)
    ensures Reached(policy, NewState("b", 0.0), Start())
  {
    var s := NewState("b", 0.0);
    assert FairRun(s, []) && Run(s, []) == s && FollowRun(policy, Start(), s, []) == Start();
  }

  lemma OneStep(policy: Policy, s: State, x: Exits, step: Step)
    requires Reached(policy, s, x) && Fair(s, step) && forall f | f in FillsOf(step) :: f.bookId == "b"
    ensures Reached(policy, Next(s, step), Follow(x, policy, s, step))
  {
    hide Fair, Next, Follow;
    var start := NewState("b", 0.0);
    var steps: seq<Step> :| FairRun(start, steps) && Run(start, steps) == s && FollowRun(policy, Start(), start, steps) == x;
    var more := steps + [step];
    assert more[..|more| - 1] == steps;
    assert FairRun(start, more) && Run(start, more) == Next(s, step)
        && FollowRun(policy, Start(), start, more) == Follow(x, policy, s, step);
  }

  lemma PartReached(
    policy: Policy, s: State, x: Exits, lots: seq<Lot>, filled: nat, seen: set<string>, id: string, q: Quantity)
    returns (s': State, x': Exits)
    requires Reached(policy, s, x) && Holds(s, x, lots, filled, seen) && id !in seen && filled + q <= 206
    ensures Reached(policy, s', x') && Holds(s', x', lots + [Part(id, q)], filled + q, seen + {id})
  {
    var step := FillArrived(Bought(id, q));
    PartHolds(policy, s, x, lots, filled, seen, id, q);
    s', x' := Next(s, step), Follow(x, policy, s, step);
    assert FillsOf(step) == [Bought(id, q)];
    hide Reached, Holds, Fair, Next, Follow;
    OneStep(policy, s, x, step);
  }

  lemma StepReached(policy: Policy) returns (s: State, x: Exits)
    ensures Reached(policy, s, x) && Holds(s, x, PartsTo(0), 0, SeenTo(0))
  {
    var s0 := NewState("b", 0.0);
    StartReached(policy);
    EntryHolds(policy);
    assert FillsOf(EntryStep()) == [] && Fair(s0, EntryStep());
    assert PartsTo(0) == [] && SeenTo(0) == {};
    hide Reached, Holds, Next, Follow, Fair;
    OneStep(policy, s0, Start(), EntryStep());
    s, x := Next(s0, EntryStep()), Follow(Start(), policy, s0, EntryStep());
  }

  /** The entry, filled in so many parts. */
  lemma {:induction false} EntryReached(policy: Policy, n: nat) returns (s: State, x: Exits)
    requires n <= 4
    ensures Reached(policy, s, x) && Holds(s, x, PartsTo(n), Filled(n), SeenTo(n))
  {
    hide Reached, Holds;
    if n == 0 {
      s, x := StepReached(policy);
    } else {
      s, x := EntryReached(policy, n - 1);
      NotSeen(n - 1, n - 1);
      FitsEntry(n);
      assert PartsTo(n) == PartsTo(n - 1) + [Part(Id(n - 1), Size(n - 1))];
      hide PartsTo, SeenTo, Id, Size;
      s, x := PartReached(policy, s, x, PartsTo(n - 1), Filled(n - 1), SeenTo(n - 1), Id(n - 1), Size(n - 1));
    }
  }

  lemma FitsEntry(n: nat)
    requires n <= 4
    ensures Filled(n) <= 206 && Filled(4) == 206
  {
    assert Filled(1) == 34 && Filled(2) == 68 && Filled(3) == 205;
  }

  /** The exit is sent for all of it. */
  lemma ExitSent(policy: Policy, s: State, x: Exits)
    requires Holds(s, x, Parts(), 206, SeenTo(4))
    ensures
      var s' := Next(s, ExitStep());
      && Fair(s, ExitStep()) && Follow(x, policy, s, ExitStep()) == x && s'.core.book == s.core.book
      && "x" in s'.core.orders && s'.core.orders["x"] == Order("x", Exit(), 206, SUBMITTED, None, 0, None, 0, 0)
  {
    PartsTotal();
    NothingHeld(s.core.orders);
    hide Committed, Total, Parts;
  }

  lemma NothingHeld(orders: map<string, Order>)
    requires orders.Keys == {"e"} && orders["e"].intent == Entry()
    ensures Committed(orders, KEY) == 0
  {
    assert HeldBy(orders, KEY) == map["e" := 0];
    Sums.CountRemove(HeldBy(orders, KEY), "e");
    assert map["e" := 0] - {"e"} == map[];
  }

  lemma BookIsGridded(s: State, x: Exits)
    requires Holds(s, x, Parts(), 206, SeenTo(4))
    ensures GriddedBook(s.core.book)
  {
    assert OnGrid(0.0);
    forall lot | lot in Parts() ensures lot.charges == 0.0 {
    }
  }

  /**
   There is a fair run, every fill on a known order, after which the manager holds 206 shares of a
   position that is gone from the book.
   */
  lemma ManagedWithoutPosition(policy: Policy)
    ensures exists steps: seq<Step> ::
      var start := NewState("b", 0.0);
      var s, x := Run(start, steps), FollowRun(policy, Start(), start, steps);
      FairRun(start, steps) && KEY in x.positions && x.positions[KEY].quantity == 206 && s.core.book.QuantityAt(KEY) == 0
  {
    FitsEntry(4);
    var s, x := EntryReached(policy, 4);
    NotSeen(4, 4);
    ExitReached(policy, s, x);
    hide Reached, Holds, Next, Follow, Fair, Id, Exit;
    LastFill(policy, Next(s, ExitStep()), x);
  }

  lemma ExitReached(policy: Policy, s: State, x: Exits)
    requires Reached(policy, s, x) && Holds(s, x, Parts(), 206, SeenTo(4))
    ensures
      var s' := Next(s, ExitStep());
      && Reached(policy, s', x) && KEY in x.positions && x.positions[KEY].quantity == s'.core.book.QuantityAt(KEY)
      && GriddedBook(s'.core.book) && s'.core.book.bookId == "b" && s'.core.book.seen == SeenTo(4)
      && KEY in s'.core.book.ledgers && s'.core.book.ledgers[KEY].lots == Parts() && s'.core.book.ledgers[KEY].direction == 1
      && "x" in s'.core.orders && s'.core.orders["x"] == Order("x", Exit(), 206, SUBMITTED, None, 0, None, 0, 0)
  {
    ExitSent(policy, s, x);
    BookIsGridded(s, x);
    assert FillsOf(ExitStep()) == [];
    hide Next, Fair, Follow, Reached, GriddedBook;
    OneStep(policy, s, x, ExitStep());
  }

  lemma LastFill(policy: Policy, s: State, x: Exits)
    requires Reached(policy, s, x) && KEY in x.positions && x.positions[KEY].quantity == s.core.book.QuantityAt(KEY)
    requires GriddedBook(s.core.book) && s.core.book.bookId == "b" && Id(4) !in s.core.book.seen
    requires KEY in s.core.book.ledgers && s.core.book.ledgers[KEY].lots == Parts() && s.core.book.ledgers[KEY].direction == 1
    requires "x" in s.core.orders && s.core.orders["x"] == Order("x", Exit(), 206, SUBMITTED, None, 0, None, 0, 0)
    ensures exists steps: seq<Step> ::
      var start := NewState("b", 0.0);
      var s, x := Run(start, steps), FollowRun(policy, Start(), start, steps);
      FairRun(start, steps) && KEY in x.positions && x.positions[KEY].quantity == 206 && s.core.book.QuantityAt(KEY) == 0
  {
    var step := FillArrived(Sold());
    ExitEscapes(s.core);
    assert FillsOf(step) == [Sold()] && Fair(s, step);
    assert Follow(x, policy, s, step) == x by { OneListened(policy, x, s.core, Sold()); hide OnFill; }
    assert Next(s, step).core.book == OnFill(s.core, Sold()).core.book by { hide OnFill; }
    hide Next, Fair, Follow, OnFill;
    OneStep(policy, s, x, step);
  }
}

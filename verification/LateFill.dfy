/**
 What a broker that breaks its contract once can do: a concrete run in which one late fill, on a stop
 already cancelled, ends in a short position although every other step is fair.
 */
module LateFill {
  import opened Domain
  import opened PositionBook
  import opened Oms
  import opened OmsSafety

  const KEY := Key("X", CNC)

  function Entry(): Intent { Intent("e", "d", "b", "s", "X", Buy, OpenRisk, Some(10), CNC, "entry") }

  function Exit(id: string): Intent { Intent(id, "d", "b", "s", "X", Sell, CloseRisk, None, CNC, "stop") }

  function Report(id: string, coid: string, side: Side, quantity: Quantity): Fill {
    Fill(id, coid, None, "b", "d", "X", side, quantity, 1.0, 0, 0.0)
  }

  /** Buy 10; cover them with a stop; cancel it; cover them with another exit; the first stop fills 4 after all; the exit fills. */
  function Steps(): seq<Step> {
    [Submit(Entry(), "e", None, Some(10), 0),
     FillArrived(Report("1", "e", Buy, 10)),
     Submit(Exit("stop"), "stop", None, Some(10), 0),
     Update(Snapshot("stop", "x", 0, CANCELLED)),
     Submit(Exit("exit"), "exit", None, Some(10), 0),
     FillArrived(Report("2", "stop", Sell, 4)),
     FillArrived(Report("3", "exit", Sell, 10))]
  }

  ghost function After(cash: real, n: nat): State
    requires n <= |Steps()|
  {
    Run(NewState("b", cash), Steps()[..n])
  }

  lemma StepsAre()
    ensures |Steps()| == 7
    ensures Steps()[0] == Submit(Entry(), "e", None, Some(10), 0)
    ensures Steps()[1] == FillArrived(Report("1", "e", Buy, 10))
    ensures Steps()[2] == Submit(Exit("stop"), "stop", None, Some(10), 0)
    ensures Steps()[3] == Update(Snapshot("stop", "x", 0, CANCELLED))
    ensures Steps()[4] == Submit(Exit("exit"), "exit", None, Some(10), 0)
    ensures Steps()[5] == FillArrived(Report("2", "stop", Sell, 4))
    ensures Steps()[6] == FillArrived(Report("3", "exit", Sell, 10))
  {
  }

  lemma AfterNext(cash: real, n: nat)
    requires n < |Steps()|
    ensures After(cash, n + 1) == Next(After(cash, n), Steps()[n])
  {
    hide Next, Steps;
    assert Steps()[..n + 1][..n] == Steps()[..n];
  }

  function Routed(coid: string, intent: Intent): Order { Order(coid, intent, 10, SUBMITTED, None, 0, None, 0, 0) }

  /** What matters of a state: the position, what live orders hold of it, and the fills seen. */
  ghost predicate Stands(s: State, position: int, held: int, seen: set<string>) {
    && s.core.book.Valid() && s.core.book.bookId == "b" && s.core.book.seen == seen
    && s.core.book.QuantityAt(KEY) == position && Committed(s.core.orders, KEY) == held
  }

  lemma NothingHeld()
    ensures Committed(map[], KEY) == 0
  {
    assert HeldBy(map[], KEY) == map[];
  }

  /** A fill of a known order, by what it does to the position and to what is held. */
  lemma FillStands(s: State, f: Fill, position: int, held: int)
    requires Stands(s, position, held, s.core.book.seen) && f.fillId !in s.core.book.seen && f.bookId == "b" && f.instrument == "X"
    requires f.coid in s.core.orders && s.core.orders[f.coid].intent.PositionKey() == KEY
    requires s.core.orders[f.coid].filledQty + f.quantity <= s.core.orders[f.coid].quantity
    ensures
      var o, s' := s.core.orders[f.coid], Next(s, FillArrived(f));
      && s'.core.orders == PutFilled(s.core, o, f).orders
      && Stands(s', position + f.side.Sign() * f.quantity,
                held - Held(o, KEY) + Held(FilledOrder(o, f), KEY), s.core.book.seen + {f.fillId})
  {
    hide Committed, ApplyToLedger, PositionOf, AvgAfter, Recordable, TradeEvents;
    var o := s.core.orders[f.coid];
    BookedQuantity(s.core.book, f, o.intent.product, o.intent.strategy, o.intent.reason, KEY);
    CommittedUpdate(s.core.orders, f.coid, PutFilled(s.core, o, f).orders[f.coid], KEY);
  }

  /** An exit submitted while nothing is held takes the whole position. */
  lemma ExitStands(s: State, id: string)
    requires Stands(s, 10, 0, s.core.book.seen) && id !in s.core.orders
    ensures
      var s' := Next(s, Submit(Exit(id), id, None, Some(10), 0));
      s'.core.orders == s.core.orders[id := Routed(id, Exit(id))] && Stands(s', 10, 10, s.core.book.seen)
  {
    hide Committed;
    CommittedUpdate(s.core.orders, id, Routed(id, Exit(id)), KEY);
  }

  lemma EntryStands(cash: real)
    ensures
      var s' := Next(NewState("b", cash), Submit(Entry(), "e", None, Some(10), 0));
      s'.core.orders == map["e" := Routed("e", Entry())] && Stands(s', 0, 0, {})
  {
    hide Reducible, Committed;
    NothingHeld();
    CommittedUpdate(map[], "e", Routed("e", Entry()), KEY);
  }

  /** A cancelled exit holds nothing. */
  lemma CancelStands(s: State, id: string)
    requires Stands(s, 10, 10, s.core.book.seen) && id in s.core.orders && s.core.orders[id] == Routed(id, Exit(id))
    ensures
      var s' := Next(s, Update(Snapshot(id, "x", 0, CANCELLED)));
      s'.core.orders == s.core.orders[id := Cancelled(id)] && Stands(s', 10, 0, s.core.book.seen)
  {
    hide Committed;
    CommittedUpdate(s.core.orders, id, Cancelled(id), KEY);
  }

  function Cancelled(id: string): Order {
    Routed(id, Exit(id)).(status := CANCELLED, brokerOrderId := Some("x"), version := 2)
  }

  /** Submissions and updates here are fair in any state. */
  lemma EasyFair(s: State, i: nat)
    requires i < 5 && i != 1
    ensures |Steps()| == 7 && Fair(s, Steps()[i])
  {
  }

  lemma EntryFillFair(s: State)
    requires "e" in s.core.orders && s.core.orders["e"] == Routed("e", Entry()) && s.core.book.bookId == "b"
    ensures Fair(s, FillArrived(Report("1", "e", Buy, 10)))
  {
  }

  lemma LateFillUnfair(s: State)
    requires "stop" in s.core.orders && s.core.orders["stop"] == Cancelled("stop") && "2" !in s.core.book.seen
    ensures !Fair(s, FillArrived(Report("2", "stop", Sell, 4)))
  {
  }

  lemma ExitFillFair(s: State)
    requires "exit" in s.core.orders && s.core.orders["exit"] == Routed("exit", Exit("exit")) && s.core.book.bookId == "b"
    ensures Fair(s, FillArrived(Report("3", "exit", Sell, 10)))
  {
  }

  lemma Start(cash: real)
    ensures After(cash, 0) == NewState("b", cash)
  {
  }

  /** After the entry is bought. */
  lemma Bought(cash: real)
    ensures |Steps()| == 7
    ensures
      var s := After(cash, 2);
      Stands(s, 10, 0, {"1"}) && s.core.orders.Keys == {"e"}
    ensures Fair(After(cash, 1), Steps()[1])
  {
    StepsAre();
    Start(cash);
    EntryStands(cash);
    AfterNext(cash, 0);
    AfterNext(cash, 1);
    hide Next, After, Stands, Steps, Fair;
    var s1 := After(cash, 1);
    SeenOf(s1, 0, 0, {});
    hide Report, Routed, Entry, Committed;
    EntryFillStands(s1);
    EntryFillFair(s1);
  }

  lemma EntryFillStands(s: State)
    requires Stands(s, 0, 0, {}) && s.core.orders == map["e" := Routed("e", Entry())]
    ensures
      var s' := Next(s, FillArrived(Report("1", "e", Buy, 10)));
      Stands(s', 10, 0, {"1"}) && s'.core.orders.Keys == {"e"}
  {
    SeenOf(s, 0, 0, {});
    hide Next, Stands, Committed, AvgAfter;
    FillStands(s, Report("1", "e", Buy, 10), 0, 0);
    assert {} + {"1"} == {"1"};
  }

  /** Cover, cancel, cover again. */
  lemma ReplaceStands(s: State, stop: string, exit: string)
    requires Stands(s, 10, 0, {"1"}) && stop !in s.core.orders && exit !in s.core.orders && stop != exit
    ensures
      var s1 := Next(s, Submit(Exit(stop), stop, None, Some(10), 0));
      var s2 := Next(s1, Update(Snapshot(stop, "x", 0, CANCELLED)));
      var s3 := Next(s2, Submit(Exit(exit), exit, None, Some(10), 0));
      && Stands(s3, 10, 10, {"1"}) && stop in s3.core.orders && exit in s3.core.orders
      && s3.core.orders[stop] == Cancelled(stop) && s3.core.orders[exit] == Routed(exit, Exit(exit))
  {
    var s1 := Next(s, Submit(Exit(stop), stop, None, Some(10), 0));
    var s2 := Next(s1, Update(Snapshot(stop, "x", 0, CANCELLED)));
    SeenOf(s, 10, 0, {"1"});
    hide Next, Stands, Committed, Exit, Cancelled, Routed;
    ExitStands(s, stop);
    SeenOf(s1, 10, 10, {"1"});
    CancelStands(s1, stop);
    SeenOf(s2, 10, 0, {"1"});
    ExitStands(s2, exit);
  }

  /** After the stop is cancelled and the exit sent. */
  lemma Replaced(cash: real)
    ensures |Steps()| == 7
    ensures
      var s := After(cash, 5);
      && Stands(s, 10, 10, {"1"}) && "stop" in s.core.orders && "exit" in s.core.orders
      && s.core.orders["stop"] == Cancelled("stop") && s.core.orders["exit"] == Routed("exit", Exit("exit"))
  {
    StepsAre();
    Bought(cash);
    AfterNext(cash, 2);
    AfterNext(cash, 3);
    AfterNext(cash, 4);
    hide Next, After, Stands, Steps, Fair, Committed, Exit, Cancelled, Routed;
    ReplaceStands(After(cash, 2), "stop", "exit");
  }

  lemma SeenOf(s: State, position: int, held: int, seen: set<string>)
    requires Stands(s, position, held, seen)
    ensures s.core.book.seen == seen && s.core.book.bookId == "b"
    ensures s.core.book.QuantityAt(KEY) == position && Committed(s.core.orders, KEY) == held
  {
  }

  lemma LateFillStands(s: State)
    requires Stands(s, 10, 10, {"1"}) && "stop" in s.core.orders && "exit" in s.core.orders
    requires s.core.orders["stop"] == Cancelled("stop") && s.core.orders["exit"] == Routed("exit", Exit("exit"))
    ensures
      var s' := Next(s, FillArrived(Report("2", "stop", Sell, 4)));
      Stands(s', 6, 16, {"1", "2"}) && "exit" in s'.core.orders && s'.core.orders["exit"] == s.core.orders["exit"]
  {
    SeenOf(s, 10, 10, {"1"});
    hide Next, Stands, Committed, AvgAfter;
    FillStands(s, Report("2", "stop", Sell, 4), 10, 10);
    assert {"1"} + {"2"} == {"1", "2"};
  }

  lemma ExitFillStands(s: State)
    requires Stands(s, 6, 16, {"1", "2"}) && "exit" in s.core.orders && s.core.orders["exit"] == Routed("exit", Exit("exit"))
    ensures Stands(Next(s, FillArrived(Report("3", "exit", Sell, 10))), -4, 6, {"1", "2", "3"})
  {
    SeenOf(s, 6, 16, {"1", "2"});
    hide Next, Stands, Committed, AvgAfter;
    FillStands(s, Report("3", "exit", Sell, 10), 6, 16);
    assert {"1", "2"} + {"3"} == {"1", "2", "3"};
  }

  /** The late fill, and the exit's. */
  lemma Sold(cash: real)
    ensures |Steps()| == 7
    ensures Stands(After(cash, 6), 6, 16, {"1", "2"}) && Stands(After(cash, 7), -4, 6, {"1", "2", "3"})
    ensures !Fair(After(cash, 5), Steps()[5]) && Fair(After(cash, 6), Steps()[6])
  {
    StepsAre();
    Replaced(cash);
    AfterNext(cash, 5);
    AfterNext(cash, 6);
    var s5, s6 := After(cash, 5), After(cash, 6);
    hide After, Next, Stands, Fair, Steps, Committed, Exit, Cancelled, Routed, Report;
    SeenOf(s5, 10, 10, {"1"});
    LateFillStands(s5);
    LateFillUnfair(s5);
    SeenOf(s6, 6, 16, {"1", "2"});
    ExitFillStands(s6);
    ExitFillFair(s6);
  }

  /**
   One late fill of 4 leaves 16 shares of live exits on a position of 6; the second exit then fills
   as it may, and the book is short by 4. Only the late fill was unfair.
   */
  lemma LateFillGoesShort(cash: real)
    ensures |Steps()| == 7
    ensures After(cash, 6).core.book.QuantityAt(KEY) == 6 && Committed(After(cash, 6).core.orders, KEY) == 16
    ensures After(cash, 7).core.book.QuantityAt(KEY) == -4
    ensures forall i | 0 <= i < 7 :: Fair(After(cash, i), Steps()[i]) <==> i != 5
  {
    StepsAre();
    Bought(cash);
    Sold(cash);
    hide After, Stands, Fair, Steps;
    SeenOf(After(cash, 6), 6, 16, {"1", "2"});
    SeenOf(After(cash, 7), -4, 6, {"1", "2", "3"});
    forall i | 0 <= i < 7 ensures Fair(After(cash, i), Steps()[i]) <==> i != 5 {
      if i < 5 && i != 1 { EasyFair(After(cash, i), i); }
    }
  }
}

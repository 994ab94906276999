/**
 A concrete run of the Flattener over one instrument held in two products: the second product's first
 attempt of the day gets the order id of the first product's, and nothing is sent for it.
 */
module FlattenClash {
  import opened Domain
  import opened PositionBook
  import opened Oms
  import opened OmsSafety
  import opened Flattener

  const FIRST := Key("X", CNC)
  const SECOND := Key("X", MIS)

  function Entry(id: string, product: Product): Intent {
    Intent(id, "d", "b", "s", "X", Buy, OpenRisk, Some(10), product, "entry")
  }

  function Exit(product: Product): Intent {
    Intent("f", "d", "b", "s", "X", Sell, FlattenRisk, Some(10), product, "flatten")
  }

  function Bought(id: string): Fill { Fill(id, id, None, "b", "d", "X", Buy, 10, 1.0, 0, 0.0) }

  function BuyStep(id: string, product: Product): Step { Submit(Entry(id, product), id, None, Some(10), 0) }

  ghost function World0(hash: IntentId -> string): World { NewWorld("b", 0.0, hash) }

  /** No entry order has a flatten order's id. */
  ghost predicate Apart(hash: IntentId -> string) { forall id: IntentId :: hash(id) != "c" && hash(id) != "m" }

  /** Nothing is committed, and the book holds this much of each product. */
  ghost predicate Holds(s: State, first: int, second: int) {
    && s.core.book.Valid() && s.core.book.bookId == "b"
    && s.core.book.QuantityAt(FIRST) == first && s.core.book.QuantityAt(SECOND) == second
    && Committed(s.core.orders, FIRST) == 0 && Committed(s.core.orders, SECOND) == 0
    && (forall c | c in s.core.orders :: s.core.orders[c].intent.kind == OpenRisk)
  }

  lemma StartHolds(hash: IntentId -> string)
    ensures Holds(World0(hash).oms, 0, 0)
  {
    assert HeldBy(map[], FIRST) == map[] && HeldBy(map[], SECOND) == map[];
  }

  function Routed(id: string, product: Product): Order { Order(id, Entry(id, product), 10, SUBMITTED, None, 0, None, 0, 0) }

  lemma BuyHolds(s: State, id: string, product: Product, first: int, second: int)
    requires Holds(s, first, second) && id !in s.core.orders
    ensures
      var s' := Next(s, BuyStep(id, product));
      && Holds(s', first, second) && s'.core.orders == s.core.orders[id := Routed(id, product)]
      && s'.core.book == s.core.book
  {
    hide Reducible, Committed;
    CommittedUpdate(s.core.orders, id, Routed(id, product), FIRST);
    CommittedUpdate(s.core.orders, id, Routed(id, product), SECOND);
  }

  lemma FillHolds(s: State, id: string, product: Product, first: int, second: int)
    requires Holds(s, first, second) && id in s.core.orders && s.core.orders[id] == Routed(id, product)
    requires id !in s.core.book.seen && product in {CNC, MIS}
    ensures
      var s' := Next(s, FillArrived(Bought(id)));
      && Holds(s', if product == CNC then first + 10 else first, if product == MIS then second + 10 else second)
      && s'.core.orders.Keys == s.core.orders.Keys && s'.core.book.seen == s.core.book.seen + {id}
  {
    hide Committed, ApplyToLedger, PositionOf, AvgAfter, Recordable, TradeEvents;
    var f, o := Bought(id), s.core.orders[id];
    BookedQuantity(s.core.book, f, product, "s", "entry", FIRST);
    BookedQuantity(s.core.book, f, product, "s", "entry", SECOND);
    CommittedUpdate(s.core.orders, id, PutFilled(s.core, o, f).orders[id], FIRST);
    CommittedUpdate(s.core.orders, id, PutFilled(s.core, o, f).orders[id], SECOND);
  }

  lemma FillIsFair(s: State, id: string, product: Product)
    requires s.core.book.bookId == "b" && id in s.core.orders && s.core.orders[id] == Routed(id, product)
    ensures FairFill(s.core, Bought(id))
  {
  }

  /** Two steps: an order bought in full. */
  ghost function Buying(s: State, id: string, product: Product): State {
    Next(Next(s, BuyStep(id, product)), FillArrived(Bought(id)))
  }

  lemma BuyingHolds(s: State, id: string, product: Product, first: int, second: int)
    requires Holds(s, first, second) && id !in s.core.orders && id !in s.core.book.seen && product in {CNC, MIS}
    ensures
      var s' := Buying(s, id, product);
      && Holds(s', if product == CNC then first + 10 else first, if product == MIS then second + 10 else second)
      && s'.core.orders.Keys == s.core.orders.Keys + {id} && s'.core.book.seen == s.core.book.seen + {id}
    ensures FairFill(Next(s, BuyStep(id, product)).core, Bought(id))
    ensures Next(s, BuyStep(id, product)).core.book.bookId == "b"
  {
    var s1 := Next(s, BuyStep(id, product));
    hide Next, Holds, FairFill, BuyStep, Bought, Routed;
    BuyHolds(s, id, product, first, second);
    HoldsId(s1, first, second);
    FillIsFair(s1, id, product);
    FillHolds(s1, id, product, first, second);
  }

  /** Both products held. */
  ghost function BothBought(hash: IntentId -> string): State { Buying(Buying(World0(hash).oms, "c", CNC), "m", MIS) }

  lemma BothHeld(hash: IntentId -> string)
    ensures Holds(BothBought(hash), 10, 10) && BothBought(hash).core.orders.Keys == {"c", "m"}
  {
    StartHolds(hash);
    assert World0(hash).oms.core.orders == map[] && World0(hash).oms.core.book.seen == {};
    hide Holds, Buying, World0;
    BuyBoth(World0(hash).oms, "c", "m");
  }

  lemma BuyBoth(s: State, a: string, b: string)
    requires Holds(s, 0, 0) && s.core.orders == map[] && s.core.book.seen == {} && a != b
    ensures
      var s' := Buying(Buying(s, a, CNC), b, MIS);
      Holds(s', 10, 10) && s'.core.orders.Keys == {a, b}
  {
    hide Holds, Buying;
    BuyingHolds(s, a, CNC, 0, 0);
    BuyingHolds(Buying(s, a, CNC), b, MIS, 10, 0);
  }

  lemma HoldsId(s: State, first: int, second: int)
    requires Holds(s, first, second)
    ensures s.core.book.bookId == "b" && s.core.book.QuantityAt(FIRST) == first && s.core.book.QuantityAt(SECOND) == second
  {
  }

  function What(key: Key): Attempt { Attempt(7, key, 1) }

  /** The world when the second attempt is about to be handed over. */
  ghost function AtSecond(hash: IntentId -> string): World {
    var w := World0(hash);
    var one := map[AttemptKey(7, FIRST) := 1];
    var both := one[AttemptKey(7, SECOND) := 1];
    w.(oms := Next(BothBought(hash), Submit(Exit(CNC), w.Coid("s", What(FIRST)), None, Some(10), 0)),
       attempts := both, saved := both, stage := Spent(What(SECOND)), sent := [Sent(What(FIRST), "s", true)])
  }

  /** The first attempt takes the whole of the first product. */
  lemma FirstRoutes(s: State, coid: string)
    requires Holds(s, 10, 10) && coid !in s.core.orders
    ensures
      var s' := Next(s, Submit(Exit(CNC), coid, None, Some(10), 0));
      && Decide(s.core, Exit(CNC), coid, None, Some(10), 0).Route?
      && s'.core.orders.Keys == s.core.orders.Keys + {coid} && s'.core.book == s.core.book
      && !InFlight(s.core.orders, FIRST) && !InFlight(s'.core.orders, SECOND)
  {
    hide Committed;
  }

  lemma SecondIsDuplicate(s: State, coid: string, now: int)
    requires s.core.book.bookId == "b" && coid in s.core.orders
    ensures Decide(s.core, Exit(MIS), coid, None, Some(10), now).Duplicate?
  {
  }

  lemma SecondFacts(hash: IntentId -> string)
    requires Apart(hash)
    ensures
      var w := AtSecond(hash);
      && w.oms.core.book.bookId == "b" && hash(FlattenId("b", "s", What(FIRST))) in w.oms.core.orders
      && w.oms.core.book.QuantityAt(SECOND) == 10 && !InFlight(w.oms.core.orders, SECOND)
  {
    BothHeld(hash);
    HoldsId(BothBought(hash), 10, 10);
    var coid := hash(FlattenId("b", "s", What(FIRST)));
    assert World0(hash).Coid("s", What(FIRST)) == coid;
    hide Holds, BothBought, FlattenId, Next, InFlight;
    FirstRoutes(BothBought(hash), coid);
  }

  /**
   The second product's attempt is a duplicate of the first's: nothing is sent for it and nothing
   works on it, although all of it is still held.
   */
  lemma TwoProductsCollide(hash: IntentId -> string)
    requires Apart(hash)
    ensures
      var w, m := AtSecond(hash), Send(Exit(MIS), Some(10), 0);
      && SendDecision(w, m).Duplicate? && MoveTo(w, m).oms == w.oms
      && w.oms.core.book.QuantityAt(SECOND) == 10 && !InFlight(w.oms.core.orders, SECOND)
  {
    var w, m := AtSecond(hash), Send(Exit(MIS), Some(10), 0);
    SecondFacts(hash);
    assert w.stage == Spent(What(SECOND)) && w.hash == hash;
    assert FlattenId("b", "s", What(FIRST)) == FlattenId("b", "s", What(SECOND));
    hide AtSecond, InFlight, FlattenId;
    assert SendStep(w, m).coid == hash(FlattenId("b", "s", What(SECOND)));
    SecondIsDuplicate(w.oms, SendStep(w, m).coid, 0);
    DuplicateChangesNothing(w, m);
  }

  lemma DuplicateChangesNothing(w: World, m: Move)
    requires m.Send? && w.stage.Spent? && SendDecision(w, m).Duplicate?
    ensures MoveTo(w, m).oms == w.oms
  {
    hide Reducible;
  }

  // ---- That world is reached ------------------------------------------------------------------------------

  /** Moves that can happen lead from one world to the other. */
  ghost predicate Leads(w0: World, w: World) { exists ms: seq<Move> :: PossibleAll(w0, ms) && Moves(w0, ms) == w }

  lemma LeadsItself(w: World)
    ensures Leads(w, w)
  {
    assert PossibleAll(w, []) && Moves(w, []) == w;
  }

  lemma OneMove(w0: World, w: World, m: Move)
    requires Leads(w0, w) && Possible(w, m)
    ensures Leads(w0, MoveTo(w, m))
  {
    hide Possible, MoveTo;
    var ms: seq<Move> :| PossibleAll(w0, ms) && Moves(w0, ms) == w;
    assert (ms + [m])[..|ms|] == ms;
    assert PossibleAll(w0, ms + [m]) && Moves(w0, ms + [m]) == MoveTo(w, m);
  }

  lemma BuyReached(w0: World, w: World, id: string, product: Product, first: int, second: int)
    requires Leads(w0, w) && Holds(w.oms, first, second) && product in {CNC, MIS}
    requires id !in w.oms.core.orders && id !in w.oms.core.book.seen && forall x: IntentId :: w.hash(x) != id
    ensures Leads(w0, w.(oms := Buying(w.oms, id, product)))
  {
    var buy, fill := Other(BuyStep(id, product)), Other(FillArrived(Bought(id)));
    var w1 := MoveTo(w, buy);
    assert w1 == w.(oms := Next(w.oms, BuyStep(id, product)));
    BuyPossible(w, id, product);
    BuyingHolds(w.oms, id, product, first, second);
    FillPossible(w1, id);
    assert MoveTo(w1, fill) == w.(oms := Buying(w.oms, id, product));
    hide Possible, MoveTo, Leads, Holds, Buying, BuyStep, Bought, Next;
    OneMove(w0, w, buy);
    OneMove(w0, w1, fill);
  }

  lemma BuyPossible(w: World, id: string, product: Product)
    requires forall x: IntentId :: w.hash(x) != id
    ensures Possible(w, Other(BuyStep(id, product)))
  {
  }

  lemma FillPossible(w: World, id: string)
    requires w.oms.core.book.bookId == "b" && FairFill(w.oms.core, Bought(id))
    ensures Possible(w, Other(FillArrived(Bought(id))))
  {
    hide FairFill;
  }

  lemma BuysReached(w0: World, a: string, b: string)
    requires Holds(w0.oms, 0, 0) && w0.oms.core.orders == map[] && w0.oms.core.book.seen == {} && a != b
    requires forall x: IntentId :: w0.hash(x) != a && w0.hash(x) != b
    ensures Leads(w0, w0.(oms := Buying(Buying(w0.oms, a, CNC), b, MIS)))
  {
    LeadsItself(w0);
    hide *;
    BuyReached(w0, w0, a, CNC, 0, 0);
    BuyingHolds(w0.oms, a, CNC, 0, 0);
    BuyReached(w0, w0.(oms := Buying(w0.oms, a, CNC)), b, MIS, 10, 0);
  }

  /** The world with one more attempt at a position counted and saved. */
  ghost function Counted(w: World, key: Key): World {
    var k := AttemptKey(7, key);
    var spent := w.attempts[k := Attempts(w.attempts, k) + 1];
    w.(attempts := spent, saved := spent, stage := Spent(Attempt(7, key, spent[k])))
  }

  /** Counting an attempt at a position nothing works on. */
  lemma SpendReached(w0: World, w: World, key: Key)
    requires Leads(w0, w) && w.stage == Idle && w.oms.core.book.QuantityAt(key) != 0 && !InFlight(w.oms.core.orders, key)
    ensures Leads(w0, Counted(w, key))
  {
    hide InFlight, Leads;
    var w1 := w.(stage := Checked(key));
    assert MoveTo(w, Check(key)) == w1;
    OneMove(w0, w, Check(key));
    OneMove(w0, w1, Spend(7));
  }

  lemma SendReached(w0: World, w: World)
    requires Leads(w0, w) && w.stage.Spent? && w.stage.what.key == FIRST
    requires Decide(w.oms.core, Exit(CNC), w.Coid("s", w.stage.what), None, Some(10), 0).Route?
    ensures Leads(w0,
      w.(oms := Next(w.oms, Submit(Exit(CNC), w.Coid("s", w.stage.what), None, Some(10), 0)), stage := Idle,
         sent := w.sent + [Sent(w.stage.what, "s", true)]))
  {
    hide Decide, Next, Leads;
    OneMove(w0, w, Send(Exit(CNC), Some(10), 0));
  }

  ghost function BothWorld(hash: IntentId -> string): World { World0(hash).(oms := BothBought(hash)) }

  lemma BothReached(hash: IntentId -> string)
    requires Apart(hash)
    ensures Leads(World0(hash), BothWorld(hash))
  {
    StartHolds(hash);
    var w0 := World0(hash);
    assert w0.oms.core.orders == map[] && w0.oms.core.book.seen == {} && w0.hash == hash;
    hide Holds, Leads, Buying, BuyStep, Bought, World0;
    BuysReached(w0, "c", "m");
  }

  function One(): map<AttemptKey, nat> { map[AttemptKey(7, FIRST) := 1] }

  /** The world before the second product's turn, and before the first product's order. */
  ghost function AfterFirst(hash: IntentId -> string): World {
    AtSecond(hash).(stage := Idle, attempts := One(), saved := One())
  }

  ghost function BeforeFirst(hash: IntentId -> string): World {
    BothWorld(hash).(attempts := One(), saved := One(), stage := Spent(What(FIRST)))
  }

  lemma FirstSends(hash: IntentId -> string)
    ensures
      var w := BeforeFirst(hash);
      AfterFirst(hash) == w.(oms := Next(w.oms, Submit(Exit(CNC), w.Coid("s", w.stage.what), None, Some(10), 0)),
                             stage := Idle, sent := w.sent + [Sent(w.stage.what, "s", true)])
  {
    hide Next, FlattenId, Exit;
    BothHeld(hash);
    HoldsId(BothBought(hash), 10, 10);
    hide BothBought, Holds;
    assert BeforeFirst(hash).Coid("s", What(FIRST)) == World0(hash).Coid("s", What(FIRST));
  }

  lemma FirstCanRoute(hash: IntentId -> string)
    requires Apart(hash)
    ensures
      var w := BeforeFirst(hash);
      && Decide(w.oms.core, Exit(CNC), w.Coid("s", w.stage.what), None, Some(10), 0).Route?
      && w.oms.core.book.QuantityAt(FIRST) != 0 && !InFlight(w.oms.core.orders, FIRST)
  {
    var w := BeforeFirst(hash);
    BothHeld(hash);
    HoldsId(BothBought(hash), 10, 10);
    hide BothBought, FlattenId, Decide, InFlight;
    assert w.Coid("s", What(FIRST)) !in BothBought(hash).core.orders;
    FirstRoutes(BothBought(hash), w.Coid("s", What(FIRST)));
  }

  lemma FirstSpends(hash: IntentId -> string)
    ensures BeforeFirst(hash) == Counted(BothWorld(hash), FIRST)
    ensures BothWorld(hash).stage == Idle && BothWorld(hash).oms == BeforeFirst(hash).oms
  {
    hide BothBought;
  }

  lemma FirstFree(hash: IntentId -> string)
    ensures BothWorld(hash).oms.core.book.QuantityAt(FIRST) == 10 && !InFlight(BothWorld(hash).oms.core.orders, FIRST)
  {
    BothHeld(hash);
    HoldsId(BothBought(hash), 10, 10);
    hide BothBought, Committed;
  }

  /** The first attempt, checked and counted. */
  lemma FirstSpentReached(hash: IntentId -> string)
    requires Apart(hash)
    ensures Leads(World0(hash), BeforeFirst(hash))
  {
    hide Apart, Leads, InFlight;
    BothReached(hash);
    FirstFree(hash);
    FirstSpends(hash);
    hide BothWorld, BeforeFirst, World0, Counted;
    SpendReached(World0(hash), BothWorld(hash), FIRST);
  }

  /** And sent. */
  lemma FirstReached(hash: IntentId -> string)
    requires Apart(hash)
    ensures Leads(World0(hash), AfterFirst(hash))
  {
    hide Apart, Leads, InFlight, Decide, Next;
    assert BeforeFirst(hash).stage == Spent(What(FIRST)) && What(FIRST).key == FIRST by { hide BothBought; }
    hide BothWorld, BeforeFirst, World0, AfterFirst;
    FirstSpentReached(hash);
    FirstCanRoute(hash);
    FirstSends(hash);
    SendReached(World0(hash), BeforeFirst(hash));
  }

  lemma SecondSpends(hash: IntentId -> string)
    ensures AtSecond(hash) == Counted(AfterFirst(hash), SECOND)
  {
    hide Next, BothBought, FlattenId, Exit;
  }

  /** The collision happens in a run that can happen. */
  lemma CollisionReached(hash: IntentId -> string)
    requires Apart(hash)
    ensures exists ms: seq<Move> :: PossibleAll(World0(hash), ms) && Moves(World0(hash), ms) == AtSecond(hash)
  {
    hide Apart, InFlight, Next;
    assert AfterFirst(hash).oms == AtSecond(hash).oms && AfterFirst(hash).stage == Idle;
    hide AtSecond, AfterFirst, World0, Counted;
    FirstReached(hash);
    SecondFacts(hash);
    SecondSpends(hash);
    SpendReached(World0(hash), AfterFirst(hash), SECOND);
  }
}

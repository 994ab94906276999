/**
 The retrying Flattener of src/risk/kill_switch.py over the OMS: at most one FLATTEN order works a
 position at a time, and an attempt number is spent before its order exists, so none is sent twice.
 */
module Flattener {
  import opened Domain
  import opened Oms
  import opened OmsRestart
  import opened OmsSafety
  import opened OmsForward

  // ---- The flattener ----------------------------------------------------------------------------------

  /** The attempts dictionary's key. */
  datatype AttemptKey = AttemptKey(day: int, key: Key)

  /** One numbered attempt at a position on a day. */
  datatype Attempt = Attempt(day: int, key: Key, number: nat)

  /** Where step stands for the position it is working on; other OMS steps happen between any two of these. */
  datatype Stage = Idle | Checked(key: Key) | Spent(what: Attempt) {
    function At(): Key
      requires !Idle?
    {
      if Checked? then key else what.key
    }
  }

  /** An attempt handed to the OMS in its owner's name, and whether it became an order. */
  datatype Sent = Sent(what: Attempt, strategy: string, routed: bool)

  /** "{book}:{strategy}:{instrument}:{day}:flatten-{attempt}": the product is not part of it. */
  datatype IntentId = IntentId(book: string, strategy: string, instrument: string, day: int, attempt: nat)

  function FlattenId(book: string, strategy: string, a: Attempt): IntentId {
    IntentId(book, strategy, a.key.instrument, a.day, a.number)
  }

  datatype World = World(
    oms: State,
    hash: IntentId -> string,       // client_order_id
    attempts: map<AttemptKey, nat>,
    saved: map<AttemptKey, nat>,
    stage: Stage,
    sent: seq<Sent>)
  {
    function Coid(strategy: string, a: Attempt): string { hash(FlattenId(oms.core.book.bookId, strategy, a)) }
  }

  predicate LiveFlatten(o: Order, key: Key) {
    o.intent.kind == FlattenRisk && o.intent.PositionKey() == key && !o.status.IsTerminal()
  }

  /** _flatten_in_flight. */
  predicate InFlight(orders: map<string, Order>, key: Key) { exists c | c in orders :: LiveFlatten(orders[c], key) }

  function Attempts(m: map<AttemptKey, nat>, k: AttemptKey): nat { if k in m then m[k] else 0 }

  datatype Move =
    | Other(step: Step)                                            // anything else the OMS does
    | Check(key: Key)                                              // the in-flight test of one position
    | Spend(day: int)                                              // count the attempt and save it
    | Send(intent: Intent, gate: Option<int>, now: int)
    | Crash                                                        // and restart, at any point

  /** A move that can happen: others never send FLATTEN orders or use their ids, the flattener keeps to its stages. */
  ghost predicate Possible(w: World, m: Move) {
    match m
    case Other(step) =>
      && Fair(w.oms, step) && OwnFills(w.oms.core.book.bookId, [step]) && !step.Restart?
      && (step.Submit? ==> step.intent.kind != FlattenRisk && forall id: IntentId :: step.coid != w.hash(id))
    case Check(key) => w.stage == Idle   // of a list read earlier: the position may be gone by now
    case Spend(day) => w.stage.Checked?
    case Send(intent, _, _) => w.stage.Spent? && intent.kind == FlattenRisk && intent.PositionKey() == w.stage.what.key
    case Crash => true
  }

  /** The submission of a spent attempt: its order id is derived from its intent id. */
  function SendStep(w: World, m: Move): Step
    requires m.Send? && w.stage.Spent?
  {
    Submit(m.intent, w.Coid(m.intent.strategy, w.stage.what), None, m.gate, m.now)
  }

  /** What the OMS makes of it. */
  ghost function SendDecision(w: World, m: Move): Decision
    requires m.Send? && w.stage.Spent?
  {
    Decide(w.oms.core, m.intent, SendStep(w, m).coid, None, m.gate, m.now)
  }

  ghost function MoveTo(w: World, m: Move): World {
    match m
    case Other(step) => w.(oms := Next(w.oms, step))
    case Check(key) => if InFlight(w.oms.core.orders, key) then w else w.(stage := Checked(key))
    case Spend(day) =>
      if !w.stage.Checked? then w else
        var k := AttemptKey(day, w.stage.key);
        var spent := w.attempts[k := Attempts(w.attempts, k) + 1];
        w.(attempts := spent, saved := spent, stage := Spent(Attempt(day, w.stage.key, spent[k])))
    case Send(intent, gate, now) =>
      if !w.stage.Spent? then w else
        w.(oms := Next(w.oms, SendStep(w, m)), stage := Idle,
           sent := w.sent + [Sent(w.stage.what, intent.strategy, SendDecision(w, m).Route?)])
    case Crash => w.(oms := Next(w.oms, Restart), attempts := w.saved, stage := Idle)
  }

  ghost function Moves(w: World, ms: seq<Move>): World {
    if ms == [] then w else MoveTo(Moves(w, ms[..|ms| - 1]), ms[|ms| - 1])
  }

  ghost predicate PossibleAll(w: World, ms: seq<Move>) {
    ms != [] ==> PossibleAll(w, ms[..|ms| - 1]) && Possible(Moves(w, ms[..|ms| - 1]), ms[|ms| - 1])
  }

  function NewWorld(bookId: string, cash: real, hash: IntentId -> string): World {
    World(NewState(bookId, cash), hash, map[], map[], Idle, [])
  }

  // ---- At most one working order ------------------------------------------------------------------------

  ghost predicate OneLive(orders: map<string, Order>) {
    forall a, b, key: Key | a in orders && b in orders && LiveFlatten(orders[a], key) && LiveFlatten(orders[b], key) :: a == b
  }

  ghost predicate Clear(w: World) { w.stage.Idle? || !InFlight(w.oms.core.orders, w.stage.At()) }

  /** Without a new FLATTEN order, none that had ended works again, so nothing new is in flight. */
  lemma OthersKeepOneLive(a: map<string, Order>, b: map<string, Order>, key: Key)
    requires Forward(a, b) && forall c | c in b && c !in a :: b[c].intent.kind != FlattenRisk
    ensures OneLive(a) ==> OneLive(b)
    ensures !InFlight(a, key) ==> !InFlight(b, key)
  {
    forall c, k: Key | c in b && LiveFlatten(b[c], k) ensures c in a && LiveFlatten(a[c], k) {
      if c in a {
        TableMovesForward(a[c].status, b[c].status);
        TableMovesForward(b[c].status, a[c].status);
      }
    }
  }

  /** A live FLATTEN order on that very instrument and product. */
  predicate WorksOn(o: Order, key: Key) {
    && o.intent.kind == FlattenRisk && o.intent.instrument == key.instrument && o.intent.product == key.product
    && o.status !in {FILLED, CANCELLED, REJECTED, EXPIRED}
  }

  /** The in-flight test lets a position through if and only if no such order works on it. */
  lemma CheckExactly(w: World, key: Key)
    requires w.stage == Idle
    ensures
      var busy := exists c | c in w.oms.core.orders :: WorksOn(w.oms.core.orders[c], key);
      MoveTo(w, Check(key)).stage == if busy then Idle else Checked(key)
  {
    assert forall o: Order :: LiveFlatten(o, key) <==> WorksOn(o, key);
  }

  // ---- No attempt twice ---------------------------------------------------------------------------------

  ghost predicate Numbered(w: World) {
    && w.saved == w.attempts
    && (forall i, j | 0 <= i < j < |w.sent| :: w.sent[i].what != w.sent[j].what)
    && (forall s | s in w.sent :: s.what.number <= Attempts(w.saved, AttemptKey(s.what.day, s.what.key)))
    && (w.stage.Spent? ==>
          && w.stage.what.number == Attempts(w.saved, AttemptKey(w.stage.what.day, w.stage.what.key))
          && forall s | s in w.sent :: s.what != w.stage.what)
  }

  lemma MoveKeepsNumbered(w: World, m: Move)
    requires Numbered(w)
    ensures Numbered(MoveTo(w, m))
  {
    hide Next, Decide;
  }

  // ---- Every run ------------------------------------------------------------------------------------------

  ghost predicate Safe(w: World) { Synced(w.oms) && OneLive(w.oms.core.orders) && Clear(w) && Numbered(w) }

  lemma MoveKeepsSafe(w: World, m: Move)
    requires Safe(w) && Possible(w, m)
    ensures Safe(MoveTo(w, m))
  {
    MoveKeepsNumbered(w, m);
    hide Numbered;
    match m
    case Other(step) => OmsStepSafe(w, step);
    case Check(key) => hide Synced;
    case Spend(day) => hide Synced;
    case Send(intent, gate, now) => SendSafe(w, intent, w.Coid(intent.strategy, w.stage.what), gate, now);
    case Crash => OmsStepSafe(w, Restart);
  }

  lemma OmsStepSafe(w: World, step: Step)
    requires Synced(w.oms) && OneLive(w.oms.core.orders) && Clear(w)
    requires Fair(w.oms, step) && OwnFills(w.oms.core.book.bookId, [step])
    requires step.Submit? ==> step.intent.kind != FlattenRisk
    ensures
      var s := Next(w.oms, step);
      Synced(s) && OneLive(s.core.orders) && (w.stage.Idle? || !InFlight(s.core.orders, w.stage.At()))
  {
    hide Synced, Next, OneLive, InFlight, Fair, Forward;
    StepSynced(w.oms, step);
    StepForward(w.oms, step);
    NewOrders(w.oms, step);
    OthersKeepOneLive(w.oms.core.orders, Next(w.oms, step).core.orders, if w.stage.Idle? then Key("", CNC) else w.stage.At());
  }

  lemma SendSafe(w: World, intent: Intent, coid: string, gate: Option<int>, now: int)
    requires Synced(w.oms) && OneLive(w.oms.core.orders) && Clear(w)
    requires w.stage.Spent? && intent.kind == FlattenRisk && intent.PositionKey() == w.stage.what.key
    ensures
      var s := Next(w.oms, Submit(intent, coid, None, gate, now));
      Synced(s) && OneLive(s.core.orders)
  {
    var step := Submit(intent, coid, None, gate, now);
    var a, b := w.oms.core.orders, Next(w.oms, step).core.orders;
    StepSynced(w.oms, step);
    NewOrders(w.oms, step);
    SubmitKeepsOthers(w.oms, step);
    hide Synced, Next, OneLive, InFlight;
    AddOneLive(a, b, coid, w.stage.what.key);
  }

  /** One more FLATTEN order on a position that has none working. */
  lemma AddOneLive(a: map<string, Order>, b: map<string, Order>, coid: string, key: Key)
    requires OneLive(a) && !InFlight(a, key)
    requires forall c | c in a :: c in b && b[c] == a[c]
    requires forall c | c in b && c !in a :: c == coid && b[c].intent.PositionKey() == key
    ensures OneLive(b)
  {
  }

  lemma SubmitKeepsOthers(s: State, step: Step)
    requires step.Submit?
    ensures forall c | c in s.core.orders :: c in Next(s, step).core.orders && Next(s, step).core.orders[c] == s.core.orders[c]
  {
    hide Reducible;
  }

  /**
   In every run, with a crash allowed anywhere, also between saving an attempt and sending it:
   each position has at most one working FLATTEN order, and no attempt number of a day and position
   is sent twice.
   */
  lemma {:induction false} FlattenSafe(bookId: string, cash: real, hash: IntentId -> string, ms: seq<Move>)
    requires PossibleAll(NewWorld(bookId, cash, hash), ms)
    ensures Safe(Moves(NewWorld(bookId, cash, hash), ms))
  {
    if ms != [] {
      hide Safe, MoveTo, Possible;
      var before := ms[..|ms| - 1];
      FlattenSafe(bookId, cash, hash, before);
      MoveKeepsSafe(Moves(NewWorld(bookId, cash, hash), before), ms[|ms| - 1]);
    }
  }

  // ---- The intent id leaves the product out -----------------------------------------------------------------

  /** The FLATTEN orders the OMS holds are exactly the attempts that were routed. */
  ghost predicate Linked(w: World) {
    && (forall s | s in w.sent && s.routed ::
          w.Coid(s.strategy, s.what) in w.oms.core.orders)
    && (forall c | c in w.oms.core.orders && w.oms.core.orders[c].intent.kind == FlattenRisk ::
          exists s :: s in w.sent && s.routed && w.Coid(s.strategy, s.what) == c)
    && (forall c, id: IntentId | c in w.oms.core.orders && c == w.hash(id) :: w.oms.core.orders[c].intent.kind == FlattenRisk)
  }

  lemma OthersKeepLinked(w: World, step: Step)
    requires Linked(w) && Synced(w.oms) && Fair(w.oms, step)
    requires step.Submit? ==> step.intent.kind != FlattenRisk && forall id: IntentId :: step.coid != w.hash(id)
    ensures Linked(w.(oms := Next(w.oms, step)))
  {
    StepKeepsBookId(w.oms, step);
    StepForward(w.oms, step);
    NewOrders(w.oms, step);
    hide Next, Fair, Synced;
    var a, b, w' := w.oms.core.orders, Next(w.oms, step).core.orders, w.(oms := Next(w.oms, step));
    assert forall s: string, at: Attempt :: w'.Coid(s, at) == w.Coid(s, at);
    forall c | c in b && b[c].intent.kind == FlattenRisk
      ensures exists s :: s in w'.sent && s.routed && w'.Coid(s.strategy, s.what) == c
    {
      assert c in a;
    }
  }

  lemma SendKeepsLinked(w: World, m: Move)
    requires Linked(w) && m.Send? && w.stage.Spent? && m.intent.kind == FlattenRisk
    ensures Linked(MoveTo(w, m))
  {
    hide Reducible, FlattenId;
    var w', s := MoveTo(w, m), Sent(w.stage.what, m.intent.strategy, SendDecision(w, m).Route?);
    var coid := SendStep(w, m).coid;
    assert w'.sent == w.sent + [s];
    assert w'.oms.core.orders.Keys == w.oms.core.orders.Keys + if s.routed then {coid} else {};
    assert forall c | c in w.oms.core.orders :: w'.oms.core.orders[c] == w.oms.core.orders[c];
    assert s.routed ==> w'.oms.core.orders[coid].intent == m.intent;
    assert forall t: string, at: Attempt :: w'.Coid(t, at) == w.Coid(t, at);
    hide MoveTo, SendDecision, SendStep;
    forall c | c in w'.oms.core.orders && w'.oms.core.orders[c].intent.kind == FlattenRisk
      ensures exists q :: q in w'.sent && q.routed && w'.Coid(q.strategy, q.what) == c
    {
      if c in w.oms.core.orders {
        var q :| q in w.sent && q.routed && w.Coid(q.strategy, q.what) == c;
        assert q in w'.sent;
      } else {
        assert s in w'.sent;
      }
    }
  }

  lemma {:induction false} RunLinked(bookId: string, cash: real, hash: IntentId -> string, ms: seq<Move>)
    requires PossibleAll(NewWorld(bookId, cash, hash), ms)
    ensures
      var w := Moves(NewWorld(bookId, cash, hash), ms);
      Linked(w) && w.hash == hash && w.oms.core.book.bookId == bookId
  {
    if ms != [] {
      var before, m := ms[..|ms| - 1], ms[|ms| - 1];
      RunLinked(bookId, cash, hash, before);
      FlattenSafe(bookId, cash, hash, before);
      MoveKeepsLinked(Moves(NewWorld(bookId, cash, hash), before), m);
    }
  }

  lemma MoveKeepsLinked(w: World, m: Move)
    requires Linked(w) && Safe(w) && Possible(w, m)
    ensures
      var w' := MoveTo(w, m);
      Linked(w') && w'.hash == w.hash && w'.oms.core.book.bookId == w.oms.core.book.bookId
  {
    hide OneLive, Clear, Numbered, Next;
    match m
    case Other(step) => hide Linked; StepKeepsBookId(w.oms, step); OthersKeepLinked(w, step);
    case Check(key) => hide Synced; SameLinks(w, MoveTo(w, m));
    case Spend(day) => hide Synced; SameLinks(w, MoveTo(w, m));
    case Send(intent, gate, now) => hide Linked, Decide; StepKeepsBookId(w.oms, SendStep(w, m)); SendKeepsLinked(w, m);
    case Crash =>
      hide Linked;
      StepKeepsBookId(w.oms, Restart);
      OthersKeepLinked(w, Restart);
      SameLinks(w.(oms := Next(w.oms, Restart)), MoveTo(w, m));
  }

  lemma SameLinks(a: World, b: World)
    requires Linked(a) && b.oms == a.oms && b.hash == a.hash && b.sent == a.sent
    ensures Linked(b)
  {
    assert forall s: string, at: Attempt :: a.Coid(s, at) == b.Coid(s, at);
  }

  ghost predicate Injective(hash: IntentId -> string) { forall a, b: IntentId :: hash(a) == hash(b) ==> a == b }

  /** Two attempts get the same order id exactly when owner, instrument, day and number agree, whatever the products. */
  ghost predicate Collide(a: Attempt, strategy: string, s: Sent) {
    s.strategy == strategy && s.what.key.instrument == a.key.instrument && s.what.day == a.day && s.what.number == a.number
  }

  /**
   In every run with distinct hashes, an attempt handed to the OMS is taken for a duplicate, and
   changes nothing in it, if and only if an earlier routed attempt has the same owner, instrument,
   day and number: the one of another product.
   */
  lemma DuplicateExactly(bookId: string, cash: real, hash: IntentId -> string, ms: seq<Move>, m: Move)
    requires PossibleAll(NewWorld(bookId, cash, hash), ms) && Injective(hash)
    requires
      var w := Moves(NewWorld(bookId, cash, hash), ms);
      m.Send? && Possible(w, m) && m.intent.bookId == bookId && m.gate.Some?
    ensures
      var w := Moves(NewWorld(bookId, cash, hash), ms);
      && (SendDecision(w, m).Duplicate? <==>
            exists s :: s in w.sent && s.routed && Collide(w.stage.what, m.intent.strategy, s))
      && (SendDecision(w, m).Duplicate? ==>
            && MoveTo(w, m).oms == w.oms
            && exists s :: s in w.sent && s.routed && Collide(w.stage.what, m.intent.strategy, s) && s.what.key != w.stage.what.key)
  {
    var w := Moves(NewWorld(bookId, cash, hash), ms);
    RunLinked(bookId, cash, hash, ms);
    FlattenSafe(bookId, cash, hash, ms);
    hide Moves, PossibleAll, Synced, OneLive, Clear, Possible;
    SendDuplicates(w, m);
  }

  lemma SendDuplicates(w: World, m: Move)
    requires Linked(w) && Numbered(w) && Injective(w.hash)
    requires m.Send? && w.stage.Spent? && m.intent.bookId == w.oms.core.book.bookId && m.gate.Some?
    ensures SendDecision(w, m).Duplicate? <==>
      exists s :: s in w.sent && s.routed && Collide(w.stage.what, m.intent.strategy, s)
    ensures SendDecision(w, m).Duplicate? ==>
      && MoveTo(w, m).oms == w.oms
      && exists s :: s in w.sent && s.routed && Collide(w.stage.what, m.intent.strategy, s) && s.what.key != w.stage.what.key
  {
    hide Reducible;
    var coid := SendStep(w, m).coid;
    assert SendDecision(w, m).Duplicate? <==> coid in w.oms.core.orders;
    forall s | s in w.sent && s.routed
      ensures w.Coid(s.strategy, s.what) == coid <==> Collide(w.stage.what, m.intent.strategy, s)
    {
    }
    if coid in w.oms.core.orders {
      assert w.oms.core.orders[coid].intent.kind == FlattenRisk;
      var s :| s in w.sent && s.routed && w.Coid(s.strategy, s.what) == coid;
      assert Collide(w.stage.what, m.intent.strategy, s) && s.what != w.stage.what;
    }
  }

  /** So in a single-product book no attempt is ever lost to an earlier one. */
  lemma SingleProductNeverDuplicate(
    bookId: string, cash: real, hash: IntentId -> string, ms: seq<Move>, m: Move, product: Product)
    requires PossibleAll(NewWorld(bookId, cash, hash), ms) && Injective(hash)
    requires
      var w := Moves(NewWorld(bookId, cash, hash), ms);
      && m.Send? && Possible(w, m) && m.intent.bookId == bookId && m.gate.Some?
      && w.stage.what.key.product == product && forall s | s in w.sent :: s.what.key.product == product
    ensures !SendDecision(Moves(NewWorld(bookId, cash, hash), ms), m).Duplicate?
  {
    DuplicateExactly(bookId, cash, hash, ms, m);
  }
}

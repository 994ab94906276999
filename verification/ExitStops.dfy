/**
 The exit manager beside the OMS whose stop orders it places: sessions, refreshes, exit fills and any
 other OMS steps in any order. While earlier sessions' stops have expired and nothing is added to a
 position, its stop and its highest close never fall.
 */
module ExitStops {
  import opened Domain
  import opened PositionBook
  import opened Oms
  import opened OmsRestart
  import opened OmsSafety
  import opened OmsForward
  import opened ExitManager

  /** The manager, the OMS, and the trigger price of every stop order sent. */
  datatype Guard = Guard(exits: Exits, oms: State, triggers: map<string, real>)

  /** _live_stop: a reduce-only stop order of the position that has not ended. */
  predicate IsLiveStop(g: Guard, key: Key, coid: string) {
    && coid in g.triggers && coid in g.oms.core.orders
    && var o := g.oms.core.orders[coid];
       o.intent.ReduceOnly() && o.intent.PositionKey() == key && !o.status.IsTerminal()
  }

  datatype GuardMove =
    | OmsMove(step: Step)                                       // the manager listens to its fills
    | SessionMove(key: Key, session: Session)
    | RefreshMove(key: Key, live: Option<string>, order: Step, accepted: bool)

  function Found(g: Guard, live: Option<string>): Option<LiveStop> {
    if live.Some? && live.value in g.triggers && live.value in g.oms.core.orders
    then Some(LiveStop(live.value, g.oms.core.orders[live.value].Remaining(), g.triggers[live.value])) else None
  }

  /** Whether the refresh sends an order for the position. */
  predicate Sends(g: Guard, m: GuardMove)
    requires m.RefreshMove?
  {
    && m.key in g.exits.positions
    && var p := g.exits.positions[m.key]; !p.closing && 0 < p.quantity && !Adopts(p, Found(g, m.live))
  }

  /** The triggers, with a new stop order's among them if the OMS took it. */
  ghost function Sent(g: Guard, order: Step, stop: real): map<string, real>
    requires order.Submit?
  {
    if order.coid in g.oms.core.orders || order.coid !in Next(g.oms, order).core.orders then g.triggers
    else g.triggers[order.coid := stop]
  }

  ghost function GuardNext(policy: Policy, g: Guard, m: GuardMove): Guard {
    match m
    case OmsMove(step) => Guard(Follow(g.exits, policy, g.oms, step), Next(g.oms, step), g.triggers)
    case SessionMove(key, session) =>
      if key !in g.exits.positions then g
      else g.(exits := g.exits.(positions := g.exits.positions[key := SessionStart(policy, g.exits.positions[key], key.instrument, session)]))
    case RefreshMove(key, live, order, accepted) =>
      if key !in g.exits.positions || !order.Submit? then g
      else
        var p := g.exits.positions[key];
        var placed := if accepted && order.coid in Next(g.oms, order).core.orders then Some(order.coid) else None;
        var exits := g.exits.(positions := g.exits.positions[key := Refresh(p, Found(g, live), placed)]);
        if !Sends(g, m) then g.(exits := exits)
        else Guard(exits, Next(g.oms, order), Sent(g, order, p.stop))
  }

  /** Nothing is bought for the position. */
  ghost predicate NoEntry(c: Core, fills: seq<Fill>, key: Key) {
    forall f | f in fills && f.coid in c.orders ::
      c.orders[f.coid].intent.ReduceOnly() || c.orders[f.coid].intent.PositionKey() != key
  }

  ghost predicate Allowed(g: Guard, m: GuardMove, key: Key) {
    match m
    case OmsMove(step) =>
      && Fair(g.oms, step) && OwnFills(g.oms.core.book.bookId, [step]) && NoEntry(g.oms.core, FillsOf(step), key)
    case SessionMove(k, _) =>   // the earlier sessions' stops have expired
      forall c | c in g.triggers && c in g.oms.core.orders && g.oms.core.orders[c].intent.PositionKey() == k ::
        g.oms.core.orders[c].status.IsTerminal()
    case RefreshMove(k, live, order, _) =>
      && (live.Some? ==> IsLiveStop(g, k, live.value))
      && order.Submit? && order.intent.ReduceOnly() && order.intent.PositionKey() == k
  }

  ghost function GuardRun(policy: Policy, g: Guard, ms: seq<GuardMove>): Guard {
    if ms == [] then g else GuardNext(policy, GuardRun(policy, g, ms[..|ms| - 1]), ms[|ms| - 1])
  }

  ghost predicate AllowedRun(policy: Policy, g: Guard, ms: seq<GuardMove>, key: Key) {
    ms != [] ==>
      AllowedRun(policy, g, ms[..|ms| - 1], key) && Allowed(GuardRun(policy, g, ms[..|ms| - 1]), ms[|ms| - 1], key)
  }

  // ---- What every move keeps ------------------------------------------------------------------------------

  /** Live stops of the position trigger at its stop price. */
  ghost predicate AtStop(g: Guard, key: Key) {
    && Synced(g.oms) && g.triggers.Keys <= g.oms.core.orders.Keys
    && (key in g.exits.positions ==>
          forall c | IsLiveStop(g, key, c) :: g.triggers[c] == g.exits.positions[key].stop)
  }

  /** If the position is still managed, its stop and highest close are no lower. */
  ghost predicate NoLower(a: Exits, b: Exits, key: Key) {
    key in b.positions ==>
      && key in a.positions
      && a.positions[key].stop <= b.positions[key].stop && a.positions[key].highestClose <= b.positions[key].highestClose
  }

  /** Listening to exits changes neither. */
  ghost predicate SameLevels(a: Exits, b: Exits, key: Key) {
    key in b.positions ==>
      && key in a.positions
      && a.positions[key].stop == b.positions[key].stop && a.positions[key].highestClose == b.positions[key].highestClose
  }

  lemma FillKeepsIntents(c: Core, f: Fill)
    ensures forall k | k in c.orders :: k in OnFill(c, f).core.orders && OnFill(c, f).core.orders[k].intent == c.orders[k].intent
  {
    hide ApplyToLedger, PositionOf, AvgAfter, Recordable, TradeEvents;
  }

  lemma ListenKeeps(x: Exits, policy: Policy, c: Core, f: Fill, key: Key)
    requires f.coid in c.orders ==>
      c.orders[f.coid].intent.ReduceOnly() || c.orders[f.coid].intent.PositionKey() != key
    ensures SameLevels(x, Listen(x, policy, c, f), key)
  {
    FillKeepsIntents(c, f);
    hide OnFill, PositionOf, Levels;
  }

  lemma {:induction false} ListenAllKeeps(x: Exits, policy: Policy, c: Core, fills: seq<Fill>, key: Key)
    requires NoEntry(c, fills, key)
    ensures SameLevels(x, ListenAll(x, policy, c, fills), key)
    decreases |fills|
  {
    if fills != [] {
      assert fills[0] in fills && forall f | f in fills[1..] :: f in fills;
      ListenKeeps(x, policy, c, fills[0], key);
      FillKeepsIntents(c, fills[0]);
      hide OnFill, Listen;
      var e := OnFill(c, fills[0]);
      if !e.raised {
        ListenAllKeeps(Listen(x, policy, c, fills[0]), policy, e.core, fills[1..], key);
      }
    }
  }

  lemma OmsMoveKeeps(policy: Policy, g: Guard, step: Step, key: Key)
    requires AtStop(g, key) && Allowed(g, OmsMove(step), key)
    ensures
      var g' := GuardNext(policy, g, OmsMove(step));
      AtStop(g', key) && NoLower(g.exits, g'.exits, key)
  {
    var g' := GuardNext(policy, g, OmsMove(step));
    ListenAllKeeps(g.exits, policy, g.oms.core, Taken(g.oms, step), key);
    StepSynced(g.oms, step);
    StepForward(g.oms, step);
    hide Next, Synced, Fair, ListenAll;
    LiveWasLive(g, g', key);
    hide IsLiveStop, Forward;
  }

  /** Orders only move forward, so a stop that works now worked before. */
  lemma LiveWasLive(g: Guard, g': Guard, key: Key)
    requires Forward(g.oms.core.orders, g'.oms.core.orders) && g'.triggers == g.triggers
    requires g.triggers.Keys <= g.oms.core.orders.Keys
    ensures forall c | IsLiveStop(g', key, c) :: IsLiveStop(g, key, c)
  {
    forall c | IsLiveStop(g', key, c) ensures IsLiveStop(g, key, c) {
      TableMovesForward(g.oms.core.orders[c].status, g'.oms.core.orders[c].status);
      TableMovesForward(g'.oms.core.orders[c].status, g.oms.core.orders[c].status);
    }
  }

  lemma SessionMoveKeeps(policy: Policy, g: Guard, m: GuardMove, key: Key)
    requires AtStop(g, key) && m.SessionMove? && Allowed(g, m, key)
    ensures
      var g' := GuardNext(policy, g, m);
      AtStop(g', key) && NoLower(g.exits, g'.exits, key)
  {
    hide Synced, FloorToTick;
    var g' := GuardNext(policy, g, m);
    forall c | IsLiveStop(g', key, c) ensures IsLiveStop(g, key, c) && m.key != key {
    }
  }

  lemma RefreshMoveKeeps(policy: Policy, g: Guard, m: GuardMove, key: Key)
    requires AtStop(g, key) && m.RefreshMove? && Allowed(g, m, key)
    ensures
      var g' := GuardNext(policy, g, m);
      AtStop(g', key) && NoLower(g.exits, g'.exits, key)
  {
    if m.key in g.exits.positions && Sends(g, m) {
      StepSynced(g.oms, m.order);
      SubmitKeeps(g.oms, m.order);
      NewOrders(g.oms, m.order);
      hide Next, Synced;
      SendKeeps(policy, g, m, key);
    } else {
      hide Synced, Next;
      AdoptKeeps(policy, g, m, key);
    }
  }

  /** Adopting a live stop takes over a price the position already has. */
  lemma AdoptKeeps(policy: Policy, g: Guard, m: GuardMove, key: Key)
    requires AtStop(g, key) && m.RefreshMove? && Allowed(g, m, key) && !(m.key in g.exits.positions && Sends(g, m))
    ensures
      var g' := GuardNext(policy, g, m);
      AtStop(g', key) && NoLower(g.exits, g'.exits, key)
  {
    hide Synced, Next;
    var g' := GuardNext(policy, g, m);
    assert g'.oms == g.oms && g'.triggers == g.triggers;
    assert forall c | IsLiveStop(g', key, c) :: IsLiveStop(g, key, c);
    assert key in g'.exits.positions ==> g'.exits.positions[key].stop == g.exits.positions[key].stop;
  }

  /** A new stop is sent at the position's price, and the orders already there stay as they are. */
  lemma SendKeeps(policy: Policy, g: Guard, m: GuardMove, key: Key)
    requires AtStop(g, key) && m.RefreshMove? && Allowed(g, m, key) && m.key in g.exits.positions && Sends(g, m)
    requires Synced(Next(g.oms, m.order))
    requires
      var a, b := g.oms.core.orders, Next(g.oms, m.order).core.orders;
      && (forall c | c in a :: c in b && b[c] == a[c])
      && (forall c | c in b && c !in a :: c == m.order.coid && b[c].intent == m.order.intent)
    ensures
      var g' := GuardNext(policy, g, m);
      AtStop(g', key) && NoLower(g.exits, g'.exits, key)
  {
    hide Synced, Next;
    var g' := GuardNext(policy, g, m);
    assert key in g'.exits.positions ==> g'.exits.positions[key].stop == g.exits.positions[key].stop;
    forall c | IsLiveStop(g', key, c) && key in g'.exits.positions ensures g'.triggers[c] == g'.exits.positions[key].stop {
      if c in g.oms.core.orders {
        assert IsLiveStop(g, key, c);
      } else {
        assert c == m.order.coid && m.key == key;
      }
    }
  }

  lemma SubmitKeeps(s: State, step: Step)
    requires step.Submit?
    ensures forall c | c in s.core.orders :: c in Next(s, step).core.orders && Next(s, step).core.orders[c] == s.core.orders[c]
  {
    hide Reducible;
  }

  /**
   Over any such run from live stops at their price, restarts and other orders included: as long as
   the position is managed, its stop and its highest close are no lower than they were.
   */
  lemma {:induction false} StopsNeverFall(policy: Policy, g: Guard, ms: seq<GuardMove>, key: Key)
    requires AtStop(g, key) && AllowedRun(policy, g, ms, key)
    ensures AtStop(GuardRun(policy, g, ms), key) && NoLower(g.exits, GuardRun(policy, g, ms).exits, key)
  {
    if ms != [] {
      hide AtStop, Allowed, GuardNext;
      var before, m := ms[..|ms| - 1], ms[|ms| - 1];
      StopsNeverFall(policy, g, before, key);
      var at := GuardRun(policy, g, before);
      match m
      case OmsMove(step) => OmsMoveKeeps(policy, at, step, key);
      case SessionMove(_, _) => SessionMoveKeeps(policy, at, m, key);
      case RefreshMove(_, _, _, _) => RefreshMoveKeeps(policy, at, m, key);
    }
  }
}

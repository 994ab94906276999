/**
 The risk state against the plain history of a run: what today's figures are, worked out from the
 operations alone, and from them exactly which breaches a tick returns.
 */
module RiskHistory {
  import opened Domain
  import opened RiskState

  // ---- Figures of a history, without the tracker ------------------------------------------------------

  predicate Dated(op: Op) { !op.Acknowledge? && !op.Reload? }

  /** The day of the last dated operation. */
  function DayOf(ops: seq<Op>): int {
    if ops == [] then 0
    else if Dated(ops[|ops| - 1]) then ops[|ops| - 1].today
    else DayOf(ops[..|ops| - 1])
  }

  /** A history that begins by starting a day, and whose days never go back. */
  ghost predicate Orderly(ops: seq<Op>) {
    && ops != [] && ops[0].Start?
    && (1 < |ops| ==>
          Orderly(ops[..|ops| - 1]) && (Dated(ops[|ops| - 1]) ==> DayOf(ops[..|ops| - 1]) <= ops[|ops| - 1].today))
  }

  /** Whether an operation after these is the first of its day. */
  predicate Opens(before: seq<Op>, op: Op) { Dated(op) && (before == [] || DayOf(before) < op.today) }

  /** The equity last seen: at a tick, or where a day was started. */
  function LastSeen(ops: seq<Op>): real {
    if ops == [] then 0.0 else
      var before, op := ops[..|ops| - 1], ops[|ops| - 1];
      if op.Tick? then op.equity else if op.Start? && Opens(before, op) then op.sod else LastSeen(before)
  }

  /** The day's opening equity: told by its first operation, else the last seen before it. */
  function Sod(ops: seq<Op>): real {
    if ops == [] then 0.0 else
      var before, op := ops[..|ops| - 1], ops[|ops| - 1];
      if !Opens(before, op) then Sod(before)
      else if op.Start? then op.sod else if op.Tick? then op.equity else LastSeen(before)
  }

  /** When the day was last marked. */
  function LastTick(ops: seq<Op>): Option<int> {
    if ops == [] then None else
      var before, op := ops[..|ops| - 1], ops[|ops| - 1];
      if op.Tick? then Some(op.now) else if Opens(before, op) then None else LastTick(before)
  }

  function RealMax(a: real, b: real): real { if a < b then b else a }
  function RealMin(a: real, b: real): real { if a < b then a else b }

  /** The highest equity ever seen. */
  function Highest(ops: seq<Op>): real {
    if ops == [] then 0.0 else
      var before, op := ops[..|ops| - 1], ops[|ops| - 1];
      if before == [] then LastSeen(ops) else RealMax(Highest(before), LastSeen(ops))
  }

  /** The lowest seen today. */
  function Lowest(ops: seq<Op>): real {
    if ops == [] then 0.0 else
      var before, op := ops[..|ops| - 1], ops[|ops| - 1];
      if Opens(before, op) then Sod(ops) else RealMin(Lowest(before), LastSeen(ops))
  }

  /** When today's rejects happened. */
  function Rejects(ops: seq<Op>): seq<int> {
    if ops == [] then [] else
      var before, op := ops[..|ops| - 1], ops[|ops| - 1];
      (if Opens(before, op) then [] else Rejects(before)) + if op.RecordReject? then [op.now] else []
  }

  /** When today's orders were sent, all of them or one strategy's. */
  function Orders(ops: seq<Op>, strategy: Option<string>): seq<int> {
    if ops == [] then [] else
      var before, op := ops[..|ops| - 1], ops[|ops| - 1];
      (if Opens(before, op) then [] else Orders(before, strategy))
        + if op.RecordOrder? && (strategy.None? || strategy.value == op.strategy) then [op.now] else []
  }

  /** Today's entries, all or one strategy's, and the instruments entered and exited. */
  function Entries(ops: seq<Op>, strategy: Option<string>): nat {
    if ops == [] then 0 else
      var before, op := ops[..|ops| - 1], ops[|ops| - 1];
      (if Opens(before, op) then 0 else Entries(before, strategy))
        + if op.RecordOrder? && !op.reduces && (strategy.None? || strategy.value == op.strategy) then 1 else 0
  }

  function Bought(ops: seq<Op>): set<string> {
    if ops == [] then {} else
      var before, op := ops[..|ops| - 1], ops[|ops| - 1];
      (if Opens(before, op) then {} else Bought(before)) + if op.RecordOrder? && !op.reduces then {op.instrument} else {}
  }

  function Sold(ops: seq<Op>): set<string> {
    if ops == [] then {} else
      var before, op := ops[..|ops| - 1], ops[|ops| - 1];
      (if Opens(before, op) then {} else Sold(before)) + if op.RecordTrade? then {op.trade.instrument} else {}
  }

  /** What a strategy has made today. */
  function Made(ops: seq<Op>, strategy: string): real {
    if ops == [] then 0.0 else
      var before, op := ops[..|ops| - 1], ops[|ops| - 1];
      (if Opens(before, op) then 0.0 else Made(before, strategy))
        + if op.RecordTrade? && op.trade.strategy == strategy then op.trade.net else 0.0
  }

  /** Its losing streak, over days: one result per exit, the first piece's; a win or an acknowledgement ends it. */
  function LastExit(ops: seq<Op>, strategy: string): Option<ExitRef> {
    if ops == [] then None else
      var op := ops[|ops| - 1];
      if op.RecordTrade? && op.trade.strategy == strategy then Some(ExitRef(op.trade.exit, op.trade.instrument))
      else LastExit(ops[..|ops| - 1], strategy)
  }

  function Streak(ops: seq<Op>, strategy: string): nat {
    if ops == [] then 0 else
      var before, op := ops[..|ops| - 1], ops[|ops| - 1];
      if op == Acknowledge(strategy) then 0
      else if op.RecordTrade? && op.trade.strategy == strategy
              && LastExit(before, strategy) != Some(ExitRef(op.trade.exit, op.trade.instrument)) then
        if op.trade.net < 0.0 then Streak(before, strategy) + 1
        else if 0.0 < op.trade.net then 0 else Streak(before, strategy)
      else Streak(before, strategy)
  }

  /** The strategies that have sent an order or closed a trade. */
  function Active(ops: seq<Op>): set<string> {
    if ops == [] then {} else
      var op := ops[|ops| - 1];
      Active(ops[..|ops| - 1])
        + if op.RecordOrder? then {op.strategy} else if op.RecordTrade? then {op.trade.strategy} else {}
  }

  /** A clock that does not go back over today's stamps. */
  ghost predicate Rising(stamps: seq<int>, now: int) {
    && (forall i, j | 0 <= i < j < |stamps| :: stamps[i] <= stamps[j])
    && (forall s | s in stamps :: s <= now)
  }

  // ---- The tracker's figures are those ------------------------------------------------------------------

  ghost predicate MoneyFigures(s: DayState, ops: seq<Op>) {
    s.day == DayOf(ops) && s.sod == Sod(ops) && s.last == LastSeen(ops) && s.peak == Highest(ops) && s.low == Lowest(ops)
      && s.lastTick == LastTick(ops)
  }

  ghost predicate TradeFigures(s: DayState, ops: seq<Op>) {
    && s.entries == Entries(ops, None) && s.entered == Bought(ops) && s.exited == Sold(ops)
    && s.strategies.Keys == Active(ops)
  }

  ghost predicate StrategyFigures(s: DayState, ops: seq<Op>, name: string) {
    var d := s.Strategy(name);
    && d.realized == Made(ops, name) && d.losses == Streak(ops, name) && d.lastExit == LastExit(ops, name)
    && d.entries == Entries(ops, Some(name))
  }

  /** The stamps a window still sees are today's own. */
  ghost predicate StampFigures(l: Limits, s: DayState, ops: seq<Op>) {
    && (forall now: int | Rising(Rejects(ops), now) ::
          Recent(s.rejectTs, now, l.rejectStormWindow) == Recent(Rejects(ops), now, l.rejectStormWindow))
    && (forall now: int | Rising(Orders(ops, None), now) ::
          Recent(s.orderTs, now, ORDER_RATE_WINDOW) == Recent(Orders(ops, None), now, ORDER_RATE_WINDOW))
  }

  ghost predicate StrategyStamps(s: DayState, ops: seq<Op>, name: string) {
    forall now: int | Rising(Orders(ops, Some(name)), now) ::
      Recent(s.Strategy(name).orderTs, now, ORDER_RATE_WINDOW) == Recent(Orders(ops, Some(name)), now, ORDER_RATE_WINDOW)
  }

  /** A state of the day, or the day before it rolled. */
  ghost predicate Held(t: Tracker, ops: seq<Op>) { ops != [] && SoundTracker(t) && t.state.Some? && t.state.value.day == DayOf(ops) }

  lemma StepHeld(l: Limits, ops: seq<Op>, t: Tracker, op: Op)
    requires Held(t, ops) && (Dated(op) ==> DayOf(ops) <= op.today)
    ensures Held(Step(l, t, op), ops + [op])
  {
    StepSound(l, t, op);
    hide SoundTracker, Recent, Raised, OrderRecorded, TradeRecorded;
    assert (ops + [op])[..|ops|] == ops;
  }

  /** Today's state for a dated operation: as it was, or a new day's. */
  function Today(t: Tracker, op: Op): DayState
    requires t.state.Some? && Dated(op)
  {
    var p := t.state.value;
    if op.today <= p.day then p
    else
      var sod := if op.Start? then op.sod else if op.Tick? then op.equity else p.last;
      NewDay(op.today, sod, RealMax(p.peak, sod), map n | n in p.strategies :: CarryOver(p.strategies[n]))
  }

  /** What each operation does to it. */
  ghost function Does(l: Limits, s: DayState, op: Op): DayState {
    match op
    case RecordOrder(_, now, strategy, instrument, reduces) => OrderRecorded(s, now, strategy, instrument, reduces)
    case RecordReject(_, now) => s.(rejectTs := Recent(s.rejectTs, now, l.rejectStormWindow) + [now])
    case RecordTrade(_, trade) => TradeRecorded(s, trade)
    case Tick(_, now, equity, u) => Ticked(l, s, now, equity, u)
    case _ => s
  }

  lemma StepDoes(l: Limits, ops: seq<Op>, t: Tracker, op: Op)
    requires Held(t, ops) && Dated(op) && DayOf(ops) <= op.today
    ensures Step(l, t, op).state == Some(Does(l, Today(t, op), op))
  {
    hide OrderRecorded, TradeRecorded, Ticked, Recent, SoundTracker;
  }

  lemma StepUndated(l: Limits, ops: seq<Op>, t: Tracker, op: Op)
    requires Held(t, ops) && !Dated(op)
    ensures Step(l, t, op).state == Some(if op.Acknowledge? && Acks(t.state.value, op.strategy)
                                         then Acknowledged(t.state.value, op.strategy) else t.state.value)
  {
    hide Acknowledged, Sound;
  }

  lemma StepMoney(l: Limits, ops: seq<Op>, t: Tracker, op: Op)
    requires Held(t, ops) && MoneyFigures(t.state.value, ops) && (Dated(op) ==> DayOf(ops) <= op.today)
    ensures Held(Step(l, t, op), ops + [op]) && MoneyFigures(Step(l, t, op).state.value, ops + [op])
  {
    StepHeld(l, ops, t, op);
    assert (ops + [op])[..|ops|] == ops;
    if Dated(op) { StepDoes(l, ops, t, op); } else { StepUndated(l, ops, t, op); }
    assert t.state.value.last <= t.state.value.peak && t.state.value.low <= t.state.value.last by { hide Step; }
    hide Held, Step, Recent, Raised;
  }

  /** What an operation adds to today's entries and instruments. */
  lemma DoesTrade(l: Limits, s: DayState, op: Op)
    ensures
      var d := Does(l, s, op);
      var enters := op.RecordOrder? && !op.reduces;
      && d.entries == s.entries + (if enters then 1 else 0)
      && d.entered == s.entered + (if enters then {op.instrument} else {})
      && d.exited == s.exited + (if op.RecordTrade? then {op.trade.instrument} else {})
      && d.strategies.Keys == s.strategies.Keys
           + (if op.RecordOrder? then {op.strategy} else if op.RecordTrade? then {op.trade.strategy} else {})
  {
    hide Recent, Raised;
  }

  lemma TodayTrade(t: Tracker, op: Op)
    requires t.state.Some? && Dated(op)
    ensures
      var s, was, opens := Today(t, op), t.state.value, t.state.value.day < op.today;
      && s.entries == (if opens then 0 else was.entries) && s.entered == (if opens then {} else was.entered)
      && s.exited == (if opens then {} else was.exited) && s.strategies.Keys == was.strategies.Keys
  {
  }

  lemma StepTrade(l: Limits, ops: seq<Op>, t: Tracker, op: Op)
    requires Held(t, ops) && TradeFigures(t.state.value, ops) && (Dated(op) ==> DayOf(ops) <= op.today)
    ensures Held(Step(l, t, op), ops + [op]) && TradeFigures(Step(l, t, op).state.value, ops + [op])
  {
    StepHeld(l, ops, t, op);
    assert (ops + [op])[..|ops|] == ops && t.state.value.day == DayOf(ops);
    if Dated(op) {
      StepDoes(l, ops, t, op);
      TodayTrade(t, op);
      DoesTrade(l, Today(t, op), op);
    } else {
      StepUndated(l, ops, t, op);
    }
    hide Held, Step, Does, Today;
  }

  /** What an operation does to one strategy's day. */
  lemma DoesStrategy(l: Limits, s: DayState, op: Op, name: string)
    ensures
      var d, was := Does(l, s, op).Strategy(name), s.Strategy(name);
      var trades := op.RecordTrade? && op.trade.strategy == name;
      var first := trades && was.lastExit != Some(ExitRef(op.trade.exit, op.trade.instrument));
      && d.realized == was.realized + (if trades then op.trade.net else 0.0)
      && d.entries == was.entries + (if op.RecordOrder? && op.strategy == name && !op.reduces then 1 else 0)
      && d.lastExit == (if trades then Some(ExitRef(op.trade.exit, op.trade.instrument)) else was.lastExit)
      && d.losses == (if !first then was.losses
                      else if op.trade.net < 0.0 then was.losses + 1 else if 0.0 < op.trade.net then 0 else was.losses)
  {
    hide Recent, Raised;
  }

  lemma TodayStrategy(t: Tracker, op: Op, name: string)
    requires t.state.Some? && Dated(op)
    ensures
      var d, was, opens := Today(t, op).Strategy(name), t.state.value.Strategy(name), t.state.value.day < op.today;
      && d.realized == (if opens then 0.0 else was.realized) && d.entries == (if opens then 0 else was.entries)
      && d.losses == was.losses && d.lastExit == was.lastExit
  {
  }

  lemma StepStrategy(l: Limits, ops: seq<Op>, t: Tracker, op: Op, name: string)
    requires Held(t, ops) && StrategyFigures(t.state.value, ops, name) && (Dated(op) ==> DayOf(ops) <= op.today)
    ensures Held(Step(l, t, op), ops + [op]) && StrategyFigures(Step(l, t, op).state.value, ops + [op], name)
  {
    StepHeld(l, ops, t, op);
    HistoryGrows(ops, op, name);
    assert t.state.value.day == DayOf(ops);
    if Dated(op) {
      StepDoes(l, ops, t, op);
      TodayStrategy(t, op, name);
      DoesStrategy(l, Today(t, op), op, name);
    } else {
      StepUndated(l, ops, t, op);
    }
    hide Held, Step, Does, Today, Made, Streak, LastExit, Entries, DayOf;
  }

  /** One more operation in the history. */
  lemma HistoryGrows(ops: seq<Op>, op: Op, name: string)
    requires ops != []
    ensures
      var now := ops + [op];
      var trades, opens := op.RecordTrade? && op.trade.strategy == name, Opens(ops, op);
      && Made(now, name) == (if opens then 0.0 else Made(ops, name)) + (if trades then op.trade.net else 0.0)
      && Entries(now, Some(name)) == (if opens then 0 else Entries(ops, Some(name)))
           + (if op.RecordOrder? && op.strategy == name && !op.reduces then 1 else 0)
      && LastExit(now, name) == (if trades then Some(ExitRef(op.trade.exit, op.trade.instrument)) else LastExit(ops, name))
      && Streak(now, name) ==
           (if op == Acknowledge(name) then 0
            else if !trades || LastExit(ops, name) == Some(ExitRef(op.trade.exit, op.trade.instrument)) then Streak(ops, name)
            else if op.trade.net < 0.0 then Streak(ops, name) + 1
            else if 0.0 < op.trade.net then 0 else Streak(ops, name))
  {
    assert (ops + [op])[..|ops|] == ops;
  }

  // Stamps: pruning never drops what a later look would still see.

  lemma {:induction false} RecentConcat(a: seq<int>, b: seq<int>, now: int, window: int)
    ensures Recent(a + b, now, window) == Recent(a, now, window) + Recent(b, now, window)
  {
    if a == [] {
      assert a + b == b;
    } else {
      assert (a + b)[1..] == a[1..] + b;
      RecentConcat(a[1..], b, now, window);
    }
  }

  lemma {:induction false} RecentTwice(a: seq<int>, now: int, later: int, window: int)
    requires now <= later
    ensures Recent(Recent(a, now, window), later, window) == Recent(a, later, window)
  {
    if a != [] {
      RecentTwice(a[1..], now, later, window);
      if now - a[0] < window {
        var rest := Recent(a[1..], now, window);
        assert ([a[0]] + rest)[1..] == rest;
      }
    }
  }

  /** One more stamp, with the old ones pruned or not, looks the same from then on. */
  lemma StampAdded(kept: seq<int>, all: seq<int>, now: int, window: int, later: int)
    requires now <= later && Recent(kept, later, window) == Recent(all, later, window)
    ensures Recent(Recent(kept, now, window) + [now], later, window) == Recent(all + [now], later, window)
  {
    RecentConcat(Recent(kept, now, window), [now], later, window);
    RecentConcat(all, [now], later, window);
    RecentTwice(kept, now, later, window);
  }

  lemma StepStamps(l: Limits, ops: seq<Op>, t: Tracker, op: Op)
    requires Held(t, ops) && StampFigures(l, t.state.value, ops) && (Dated(op) ==> DayOf(ops) <= op.today)
    ensures Held(Step(l, t, op), ops + [op]) && StampFigures(l, Step(l, t, op).state.value, ops + [op])
  {
    StepHeld(l, ops, t, op);
    assert (ops + [op])[..|ops|] == ops;
    if Dated(op) { StepDoes(l, ops, t, op); } else { StepUndated(l, ops, t, op); }
    assert t.state.value.day == DayOf(ops);
    var s := Step(l, t, op).state.value;
    hide Held, Step, Recent, Raised, Marked;
    forall now: int | Rising(Rejects(ops + [op]), now)
      ensures Recent(s.rejectTs, now, l.rejectStormWindow) == Recent(Rejects(ops + [op]), now, l.rejectStormWindow)
    {
      RejectStamps(l, ops, t.state.value, op, now);
    }
    forall now: int | Rising(Orders(ops + [op], None), now)
      ensures Recent(s.orderTs, now, ORDER_RATE_WINDOW) == Recent(Orders(ops + [op], None), now, ORDER_RATE_WINDOW)
    {
      OrderStamps(l, ops, t.state.value, op, now);
    }
  }

  /** The stamps after a step, from those before: those of a new day start empty. */
  function StampsAfter(kept: seq<int>, opens: bool, adds: bool, now: int, window: int): seq<int> {
    var left := if opens then [] else kept;
    if adds then Recent(left, now, window) + [now] else left
  }

  lemma RejectStamps(l: Limits, ops: seq<Op>, s: DayState, op: Op, now: int)
    requires ops != [] && StampFigures(l, s, ops) && Rising(Rejects(ops + [op]), now)
    ensures
      Recent(StampsAfter(s.rejectTs, Opens(ops, op), op.RecordReject?, if op.RecordReject? then op.now else 0, l.rejectStormWindow),
             now, l.rejectStormWindow) == Recent(Rejects(ops + [op]), now, l.rejectStormWindow)
  {
    assert (ops + [op])[..|ops|] == ops;
    var left, all := if Opens(ops, op) then [] else s.rejectTs, if Opens(ops, op) then [] else Rejects(ops);
    RisingInit(all, if op.RecordReject? then [op.now] else [], now);
    assert Recent(left, now, l.rejectStormWindow) == Recent(all, now, l.rejectStormWindow);
    assert all + [] == all;
    if op.RecordReject? {
      assert op.now in Rejects(ops + [op]);
      StampAdded(left, all, op.now, l.rejectStormWindow, now);
    }
  }

  lemma OrderStamps(l: Limits, ops: seq<Op>, s: DayState, op: Op, now: int)
    requires ops != [] && StampFigures(l, s, ops) && Rising(Orders(ops + [op], None), now)
    ensures
      Recent(StampsAfter(s.orderTs, Opens(ops, op), op.RecordOrder?, if op.RecordOrder? then op.now else 0, ORDER_RATE_WINDOW),
             now, ORDER_RATE_WINDOW) == Recent(Orders(ops + [op], None), now, ORDER_RATE_WINDOW)
  {
    assert (ops + [op])[..|ops|] == ops;
    var left, all := if Opens(ops, op) then [] else s.orderTs, if Opens(ops, op) then [] else Orders(ops, None);
    RisingInit(all, if op.RecordOrder? then [op.now] else [], now);
    assert Recent(left, now, ORDER_RATE_WINDOW) == Recent(all, now, ORDER_RATE_WINDOW);
    assert all + [] == all;
    if op.RecordOrder? {
      assert op.now in Orders(ops + [op], None);
      StampAdded(left, all, op.now, ORDER_RATE_WINDOW, now);
    }
  }

  lemma StepStrategyStamps(l: Limits, ops: seq<Op>, t: Tracker, op: Op, name: string)
    requires Held(t, ops) && StrategyStamps(t.state.value, ops, name) && (Dated(op) ==> DayOf(ops) <= op.today)
    ensures Step(l, t, op).state.Some? && StrategyStamps(Step(l, t, op).state.value, ops + [op], name)
  {
    assert (ops + [op])[..|ops|] == ops && t.state.value.day == DayOf(ops);
    if Dated(op) { StepDoes(l, ops, t, op); } else { StepUndated(l, ops, t, op); }
    var s, was := Step(l, t, op).state.value, t.state.value;
    hide Held, Step, Recent, Raised, Marked;
    var adds := op.RecordOrder? && op.strategy == name;
    var stamp := if adds then op.now else 0;
    assert s.Strategy(name).orderTs == StampsAfter(was.Strategy(name).orderTs, Opens(ops, op), adds, stamp, ORDER_RATE_WINDOW);
    hide Does, Today;
    forall now: int | Rising(Orders(ops + [op], Some(name)), now)
      ensures Recent(s.Strategy(name).orderTs, now, ORDER_RATE_WINDOW) == Recent(Orders(ops + [op], Some(name)), now, ORDER_RATE_WINDOW)
    {
      var left, all := if Opens(ops, op) then [] else was.Strategy(name).orderTs, if Opens(ops, op) then [] else Orders(ops, Some(name));
      RisingInit(all, if adds then [stamp] else [], now);
      assert all + [] == all;
      if adds {
        assert stamp in Orders(ops + [op], Some(name));
        StampAdded(left, all, stamp, ORDER_RATE_WINDOW, now);
      }
    }
  }

  lemma RisingInit(a: seq<int>, b: seq<int>, now: int)
    requires Rising(a + b, now)
    ensures Rising(a, now)
  {
    assert forall i | 0 <= i < |a| :: (a + b)[i] == a[i];
    assert forall s | s in a :: s in a + b;
  }

  /** All the figures, after any orderly history, restarts included. */
  lemma {:induction false} FiguresAre(l: Limits, ops: seq<Op>, name: string)
    requires Orderly(ops)
    ensures
      var t := Run(l, FRESH, ops);
      && Held(t, ops) && MoneyFigures(t.state.value, ops) && TradeFigures(t.state.value, ops)
      && StrategyFigures(t.state.value, ops, name) && StampFigures(l, t.state.value, ops)
      && StrategyStamps(t.state.value, ops, name)
  {
    var before, op := ops[..|ops| - 1], ops[|ops| - 1];
    if |ops| == 1 {
      assert ops == [op] && before == [];
      FirstFigures(l, op, name);
    } else {
      FiguresAre(l, before, name);
      var t := Run(l, FRESH, before);
      assert before + [op] == ops;
      hide Step, Held, MoneyFigures, TradeFigures, StrategyFigures, StampFigures, StrategyStamps;
      StepMoney(l, before, t, op);
      StepTrade(l, before, t, op);
      StepStrategy(l, before, t, op, name);
      StepStamps(l, before, t, op);
      StepStrategyStamps(l, before, t, op, name);
    }
  }

  lemma FirstFigures(l: Limits, op: Op, name: string)
    requires op.Start?
    ensures
      var t := Run(l, FRESH, [op]);
      && Held(t, [op]) && MoneyFigures(t.state.value, [op]) && TradeFigures(t.state.value, [op])
      && StrategyFigures(t.state.value, [op], name) && StampFigures(l, t.state.value, [op])
      && StrategyStamps(t.state.value, [op], name)
  {
    assert [op][..0] == [];
    StepSound(l, FRESH, op);
    RunSound(l, []);
  }

  /** When a day cannot be had: never going back to one, and never without a start or an equity to start from. */
  lemma DayRefused(t: Tracker, today: int, sod: real, hint: Option<real>)
    ensures StartDay(t, today, sod).None? <==> t.state.Some? && today < t.state.value.day
    ensures Current(t, today, hint).None? <==>
      (t.state.Some? && today < t.state.value.day) || (t.state.None? && hint.None?)
    ensures t.state.Some? && t.state.value.day == today ==> StartDay(t, today, sod) == Some(t) == Current(t, today, hint)
    ensures t.state.Some? && t.state.value.day < today ==>
      StartDay(t, today, sod).value.rolled == t.rolled + [t.state.value]
  {
  }

  // ---- What has been raised today ----------------------------------------------------------------------

  /** The marks of the breaches today's ticks have returned, less a streak acknowledged since while it ran. */
  ghost function RaisedToday(l: Limits, ops: seq<Op>): set<(Code, string)> {
    if ops == [] then {} else
      var before, op := ops[..|ops| - 1], ops[|ops| - 1];
      var marks := if Opens(before, op) then {} else RaisedToday(l, before);
      if op.Tick? then marks + set b | b in Returned(l, Run(l, FRESH, before), op) :: b.Mark()
      else if op.Acknowledge? && 0 < Streak(before, op.strategy) then marks - {(ConsecutiveLosses, op.strategy)}
      else marks
  }

  lemma StepMarks(l: Limits, ops: seq<Op>, t: Tracker, op: Op)
    requires Held(t, ops) && (Dated(op) ==> DayOf(ops) <= op.today)
    requires op.Acknowledge? ==> StrategyFigures(t.state.value, ops, op.strategy)
    ensures Step(l, t, op).state.Some?
    ensures
      var marks := if Opens(ops, op) then {} else t.state.value.breaches;
      Step(l, t, op).state.value.breaches ==
        if op.Tick? then marks + set b | b in Returned(l, t, op) :: b.Mark()
        else if op.Acknowledge? && 0 < Streak(ops, op.strategy) then marks - {(ConsecutiveLosses, op.strategy)}
        else marks
  {
    if Dated(op) {
      StepDoes(l, ops, t, op);
      if op.Tick? { ReturnedToday(l, ops, t, op); }
    } else {
      StepUndated(l, ops, t, op);
    }
    assert t.state.value.day == DayOf(ops);
    assert op.Acknowledge? ==> (Acks(t.state.value, op.strategy) <==> 0 < Streak(ops, op.strategy));
    hide Step, Held, Returned, Recent, Raised, Made, LastExit, Entries, Streak;
  }

  lemma ReturnedToday(l: Limits, ops: seq<Op>, t: Tracker, tick: Op)
    requires Held(t, ops) && tick.Tick? && DayOf(ops) <= tick.today
    ensures Returned(l, t, tick) ==
      Raised(l, RiskState.Marked(Today(t, tick), tick.now, tick.equity), tick.now, tick.unrealized)
  {
    hide Raised, SoundTracker, RiskState.Marked;
  }

  /** So it is with the marks the tracker keeps: what was raised and not acknowledged, and nothing of another day. */
  lemma {:induction false} MarksAre(l: Limits, ops: seq<Op>)
    requires Orderly(ops)
    ensures Run(l, FRESH, ops).state.Some? && Run(l, FRESH, ops).state.value.breaches == RaisedToday(l, ops)
  {
    var before, op := ops[..|ops| - 1], ops[|ops| - 1];
    if |ops| == 1 {
      assert before == [] && ops == [op];
    } else {
      MarksAre(l, before);
      FiguresAre(l, before, if op.Acknowledge? then op.strategy else "");
      hide Step, Held, StrategyFigures, MoneyFigures, TradeFigures, StampFigures, StrategyStamps, Returned, Streak;
      StepMarks(l, before, Run(l, FRESH, before), op);
    }
  }

  // ---- Which breaches a tick returns -------------------------------------------------------------------

  /** Not raised yet today: the tick opens the day, or the mark is not among those of the history. */
  ghost predicate NotRaised(l: Limits, ops: seq<Op>, tick: Op, mark: (Code, string)) {
    Opens(ops, tick) || mark !in RaisedToday(l, ops)
  }

  /** How far an equity lies below the highest ever seen, as a part of it. */
  function Fall(high: real, equity: real): real { if high <= 0.0 then 0.0 else (high - equity) / high }

  /** The state the tick's limits are held against. */
  ghost function MarkedState(t: Tracker, tick: Op): DayState
    requires tick.Tick? && t.state.Some?
  {
    RiskState.Marked(Today(t, tick), tick.now, tick.equity)
  }

  lemma ReturnedIs(l: Limits, ops: seq<Op>, t: Tracker, tick: Op, b: Breach)
    requires Held(t, ops) && t.state.value.breaches == RaisedToday(l, ops) && tick.Tick? && DayOf(ops) <= tick.today
    ensures b in Returned(l, t, tick) <==>
      b in Found(l, MarkedState(t, tick), tick.now, tick.unrealized) && NotRaised(l, ops, tick, b.Mark())
  {
    hide Found, SoundTracker, RaisedToday;
  }

  lemma MarkedFigures(l: Limits, ops: seq<Op>, t: Tracker, tick: Op)
    requires Held(t, ops) && MoneyFigures(t.state.value, ops) && tick.Tick? && DayOf(ops) <= tick.today
    ensures t.state.Some?
    ensures
      var s := MarkedState(t, tick);
      s.sod == Sod(ops + [tick]) && s.last == tick.equity && s.peak == Highest(ops + [tick])
  {
    assert (ops + [tick])[..|ops|] == ops;
    assert t.state.value.last <= t.state.value.peak;
    hide SoundTracker;
  }

  /**
   Daily loss and drawdown: after any orderly history, a tick returns the one if and only if the
   equity is down on the day's opening by the limit or more, the other if and only if it is that far
   below the highest equity ever seen, each once a day and with its configured action.
   */
  lemma EquityBreachesExactly(l: Limits, ops: seq<Op>, tick: Op)
    requires Orderly(ops) && tick.Tick? && DayOf(ops) <= tick.today
    ensures
      var t, sod, high := Run(l, FRESH, ops), Sod(ops + [tick]), Highest(ops + [tick]);
      && (Breach(DailyLoss, "global", l.dailyLossAction) in Returned(l, t, tick) <==>
            NotRaised(l, ops, tick, (DailyLoss, "global")) && 0.0 < sod && tick.equity <= sod * (1.0 - l.dailyLossPct))
      && (Breach(DrawdownLimit, "global", l.drawdownAction) in Returned(l, t, tick) <==>
            NotRaised(l, ops, tick, (DrawdownLimit, "global")) && l.maxDrawdownPct <= Fall(high, tick.equity))
  {
    hide *;
    var t := Run(l, FRESH, ops);
    FiguresAre(l, ops, "");
    MarksAre(l, ops);
    MarkedFigures(l, ops, t, tick);
    ReturnedIs(l, ops, t, tick, Breach(DailyLoss, "global", l.dailyLossAction));
    ReturnedIs(l, ops, t, tick, Breach(DrawdownLimit, "global", l.drawdownAction));
    HistoryStarted(ops);
    HighestIsHigh(ops, tick);
    EquityLimits(l, MarkedState(t, tick), tick, Sod(ops + [tick]), Highest(ops + [tick]));
    MarksOf(l);
  }

  lemma HistoryStarted(ops: seq<Op>)
    requires Orderly(ops)
    ensures ops != []
  {
  }

  lemma MarksOf(l: Limits)
    ensures Breach(DailyLoss, "global", l.dailyLossAction).Mark() == (DailyLoss, "global")
    ensures Breach(DrawdownLimit, "global", l.drawdownAction).Mark() == (DrawdownLimit, "global")
  {
  }

  lemma EquityLimits(l: Limits, s: DayState, tick: Op, sod: real, high: real)
    requires tick.Tick? && s.sod == sod && s.last == tick.equity <= s.peak == high
    ensures Breach(DailyLoss, "global", l.dailyLossAction) in Found(l, s, tick.now, tick.unrealized) <==>
      0.0 < sod && tick.equity <= sod * (1.0 - l.dailyLossPct)
    ensures Breach(DrawdownLimit, "global", l.drawdownAction) in Found(l, s, tick.now, tick.unrealized) <==>
      l.maxDrawdownPct <= Fall(high, tick.equity)
  {
    EquityFound(l, s, tick);
    FallIs(s);
    hide Found, Fall;
    assert sod * (1.0 - l.dailyLossPct) == sod - sod * l.dailyLossPct;
  }

  lemma HighestIsHigh(ops: seq<Op>, tick: Op)
    requires ops != [] && tick.Tick?
    ensures tick.equity <= Highest(ops + [tick])
  {
    assert (ops + [tick])[..|ops|] == ops;
  }

  lemma FallIs(s: DayState)
    requires s.last <= s.peak
    ensures s.Drawdown() == Fall(s.peak, s.last)
  {
  }

  lemma EquityFound(l: Limits, s: DayState, tick: Op)
    requires tick.Tick?
    ensures Breach(DailyLoss, "global", l.dailyLossAction) in Found(l, s, tick.now, tick.unrealized) <==>
      0.0 < s.sod && s.sod * l.dailyLossPct <= s.sod - s.last
    ensures Breach(DrawdownLimit, "global", l.drawdownAction) in Found(l, s, tick.now, tick.unrealized) <==>
      l.maxDrawdownPct <= s.Drawdown()
    ensures Breach(RejectStorm, "global", HaltNew) in Found(l, s, tick.now, tick.unrealized) <==>
      l.rejectStormCount <= |Recent(s.rejectTs, tick.now, l.rejectStormWindow)|
  {
    hide Recent;
  }

  /** How many of today's rejects lie inside the window. */
  function Within(stamps: seq<int>, now: int, window: int): nat {
    if stamps == [] then 0 else Within(stamps[..|stamps| - 1], now, window) + if now - stamps[|stamps| - 1] < window then 1 else 0
  }

  lemma {:induction false} WithinIs(stamps: seq<int>, now: int, window: int)
    ensures |Recent(stamps, now, window)| == Within(stamps, now, window)
  {
    if stamps != [] {
      var init, last := stamps[..|stamps| - 1], stamps[|stamps| - 1];
      assert init + [last] == stamps;
      RecentConcat(init, [last], now, window);
      WithinIs(init, now, window);
    }
  }

  /** A reject storm: if and only if that many of today's rejects lie inside the window. */
  lemma StormExactly(l: Limits, ops: seq<Op>, tick: Op)
    requires Orderly(ops) && tick.Tick? && DayOf(ops) <= tick.today && Rising(Rejects(ops), tick.now)
    ensures
      var t, rejects := Run(l, FRESH, ops), if Opens(ops, tick) then [] else Rejects(ops);
      Breach(RejectStorm, "global", HaltNew) in Returned(l, t, tick) <==>
        NotRaised(l, ops, tick, (RejectStorm, "global"))
        && l.rejectStormCount <= Within(rejects, tick.now, l.rejectStormWindow)
  {
    var t := Run(l, FRESH, ops);
    FiguresAre(l, ops, "");
    MarksAre(l, ops);
    ReturnedIs(l, ops, t, tick, Breach(RejectStorm, "global", HaltNew));
    var s, rejects := MarkedState(t, tick), if Opens(ops, tick) then [] else Rejects(ops);
    EquityFound(l, s, tick);
    WithinIs(rejects, tick.now, l.rejectStormWindow);
    assert Recent(s.rejectTs, tick.now, l.rejectStormWindow) == Recent(rejects, tick.now, l.rejectStormWindow);
    hide Run, Returned, MarkedState, Found, NotRaised, Recent, Within;
  }

  /**
   A strategy's breaches, for those the history or the tick knows: its loss if and only if what it made
   today and what it holds come to the limit of the day's opening; its streak if and only if that many
   losing exits in a row; both only halt.
   */
  lemma StrategyBreachesExactly(l: Limits, ops: seq<Op>, tick: Op, name: string)
    requires Orderly(ops) && tick.Tick? && DayOf(ops) <= tick.today
    ensures
      var t, sod := Run(l, FRESH, ops), Sod(ops + [tick]);
      var known, open := name in Active(ops) + tick.unrealized.Keys, if name in tick.unrealized then tick.unrealized[name] else 0.0;
      && (Breach(StrategyLoss, name, HaltNew) in Returned(l, t, tick) <==>
            && NotRaised(l, ops, tick, (StrategyLoss, name)) && known
            && 0.0 < sod && Made(ops + [tick], name) + open <= -(sod * l.strategyLossPct))
      && (Breach(ConsecutiveLosses, name, HaltNew) in Returned(l, t, tick) <==>
            NotRaised(l, ops, tick, (ConsecutiveLosses, name)) && known && l.maxConsecLosses <= Streak(ops, name))
  {
    hide *;
    var t := Run(l, FRESH, ops);
    FiguresAre(l, ops, name);
    MarksAre(l, ops);
    MarkedFigures(l, ops, t, tick);
    MarkedStrategy(l, ops, t, tick, name);
    ReturnedIs(l, ops, t, tick, Breach(StrategyLoss, name, HaltNew));
    ReturnedIs(l, ops, t, tick, Breach(ConsecutiveLosses, name, HaltNew));
    StrategyFound(l, MarkedState(t, tick), tick, name);
    StrategyMarks(name);
    var sod, made, open := Sod(ops + [tick]), Made(ops + [tick], name), if name in tick.unrealized then tick.unrealized[name] else 0.0;
    assert sod * l.strategyLossPct <= -(made + open) <==> made + open <= -(sod * l.strategyLossPct);
  }

  lemma StrategyMarks(name: string)
    ensures Breach(StrategyLoss, name, HaltNew).Mark() == (StrategyLoss, name)
    ensures Breach(ConsecutiveLosses, name, HaltNew).Mark() == (ConsecutiveLosses, name)
  {
  }

  lemma MarkedStrategy(l: Limits, ops: seq<Op>, t: Tracker, tick: Op, name: string)
    requires Held(t, ops) && TradeFigures(t.state.value, ops) && StrategyFigures(t.state.value, ops, name)
    requires tick.Tick? && DayOf(ops) <= tick.today
    ensures
      var s := MarkedState(t, tick);
      && s.strategies.Keys == Active(ops) && s.Strategy(name).realized == Made(ops + [tick], name)
      && s.Strategy(name).losses == Streak(ops, name)
  {
    TodayStrategy(t, tick, name);
    TodayTrade(t, tick);
    HistoryGrows(ops, tick, name);
    hide Today, Made, Streak, LastExit, Entries, Active, SoundTracker;
  }

  lemma StrategyFound(l: Limits, s: DayState, tick: Op, name: string)
    requires tick.Tick?
    ensures
      var d, known := s.Strategy(name), name in s.strategies.Keys + tick.unrealized.Keys;
      var open := if name in tick.unrealized then tick.unrealized[name] else 0.0;
      && (Breach(StrategyLoss, name, HaltNew) in Found(l, s, tick.now, tick.unrealized) <==>
            known && 0.0 < s.sod && s.sod * l.strategyLossPct <= -(d.realized + open))
      && (Breach(ConsecutiveLosses, name, HaltNew) in Found(l, s, tick.now, tick.unrealized) <==>
            known && l.maxConsecLosses <= d.losses)
  {
    hide Recent;
    var b, c := Breach(StrategyLoss, name, HaltNew), Breach(ConsecutiveLosses, name, HaltNew);
    assert b in StrategyBreaches(l, s, name, Unrealized(tick.unrealized, name)) <==>
      0.0 < s.sod && s.sod * l.strategyLossPct <= -(s.Strategy(name).realized + Unrealized(tick.unrealized, name));
    assert c in StrategyBreaches(l, s, name, Unrealized(tick.unrealized, name)) <==> l.maxConsecLosses <= s.Strategy(name).losses;
  }

  /** And nothing else: every breach has the action and name of its kind. */
  lemma BreachesAreThose(l: Limits, t: Tracker, tick: Op, b: Breach)
    requires b in Returned(l, t, tick)
    ensures b in {Breach(DailyLoss, "global", l.dailyLossAction), Breach(DrawdownLimit, "global", l.drawdownAction),
                  Breach(RejectStorm, "global", HaltNew), Breach(StrategyLoss, b.name, HaltNew),
                  Breach(ConsecutiveLosses, b.name, HaltNew)}
  {
    hide Recent;
  }
}

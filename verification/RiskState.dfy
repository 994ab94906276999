/** The per-day risk state of src/risk/state.py: rolled at each IST day, saved on every change. */
module RiskState {
  import opened Domain
  import opened Sums

  // ---- State ----------------------------------------------------------------------------------------

  datatype Code = DailyLoss | DrawdownLimit | RejectStorm | StrategyLoss | ConsecutiveLosses

  datatype Action = HaltNew | FlattenAll

  /** A limit crossed; the name is "global" or a strategy. */
  datatype Breach = Breach(code: Code, name: string, action: Action) {
    function Mark(): (Code, string) { (code, name) }
  }

  datatype Limits = Limits(
    dailyLossPct: real,
    dailyLossAction: Action,
    maxDrawdownPct: real,
    drawdownAction: Action,
    rejectStormCount: nat,
    rejectStormWindow: int,
    strategyLossPct: real,
    maxConsecLosses: Quantity,      // validated to be at least 1
    rearmOnNewDay: bool)

  datatype ExitRef = ExitRef(exit: string, instrument: string)

  datatype StrategyDay = StrategyDay(
    realized: real, trades: nat, losses: nat, entries: nat, orderTs: seq<int>, lastExit: Option<ExitRef>)

  const NEW_STRATEGY := StrategyDay(0.0, 0, 0, 0, [], None)

  datatype DayState = DayState(
    day: int,
    sod: real,
    peak: real,
    last: real,
    low: real,
    realized: real,
    entries: nat,
    entered: set<string>,
    exited: set<string>,
    strategies: map<string, StrategyDay>,
    orderTs: seq<int>,
    rejectTs: seq<int>,
    breaches: set<(Code, string)>,
    lastTick: Option<int>)
  {
    function Strategy(name: string): StrategyDay { if name in strategies then strategies[name] else NEW_STRATEGY }

    function Drawdown(): real {
      if peak <= 0.0 then 0.0 else
        var fall := (peak - last) / peak;
        if fall < 0.0 then 0.0 else fall
    }
  }

  /** Memory, the saved copy, and the days already rolled (DailyRiskStateRolled). */
  datatype Tracker = Tracker(state: Option<DayState>, saved: Option<DayState>, rolled: seq<DayState>)

  const ORDER_RATE_WINDOW := 60

  function Recent(stamps: seq<int>, now: int, window: int): seq<int> {
    if stamps == [] then [] else
      var rest := Recent(stamps[1..], now, window);
      if now - stamps[0] < window then [stamps[0]] + rest else rest
  }

  // ---- Operations -----------------------------------------------------------------------------------

  function Save(t: Tracker, s: DayState): Tracker { t.(state := Some(s), saved := Some(s)) }

  /** A strategy's day when the IST day rolls: only the streak carries over. */
  function CarryOver(d: StrategyDay): StrategyDay { NEW_STRATEGY.(losses := d.losses, lastExit := d.lastExit) }

  /** start_day; None is the ValueError for a state dated after today. */
  function StartDay(t: Tracker, today: int, sod: real): Option<Tracker> {
    if t.state.None? then Some(Save(t, NewDay(today, sod, sod, map[])))
    else
      var p := t.state.value;
      if p.day == today then Some(t)
      else if today < p.day then None
      else
        var peak := if p.peak < sod then sod else p.peak;
        var carried := map n | n in p.strategies :: CarryOver(p.strategies[n]);
        Some(Save(t.(rolled := t.rolled + [p]), NewDay(today, sod, peak, carried)))
  }

  function NewDay(today: int, sod: real, peak: real, strategies: map<string, StrategyDay>): DayState {
    DayState(today, sod, peak, sod, sod, 0.0, 0, {}, {}, strategies, [], [], {}, None)
  }

  /** _current: None is an exception (nothing started, or a clock that went back). */
  function Current(t: Tracker, today: int, hint: Option<real>): Option<Tracker> {
    if t.state.Some? && t.state.value.day == today then Some(t)
    else if hint.Some? then StartDay(t, today, hint.value)
    else if t.state.Some? then StartDay(t, today, t.state.value.last)
    else None
  }

  function OrderRecorded(s: DayState, now: int, strategy: string, instrument: string, reduces: bool): DayState {
    var d := s.Strategy(strategy);
    var d1 := d.(orderTs := Recent(d.orderTs, now, ORDER_RATE_WINDOW) + [now]);
    var s1 := s.(orderTs := Recent(s.orderTs, now, ORDER_RATE_WINDOW) + [now]);
    if reduces then s1.(strategies := s.strategies[strategy := d1])
    else s1.(entries := s.entries + 1, entered := s.entered + {instrument},
             strategies := s.strategies[strategy := d1.(entries := d.entries + 1)])
  }

  /** A TradeClosed event as the tracker sees it: `exit` names the decision that closed it. */
  datatype Trade = Trade(strategy: string, instrument: string, exit: string, net: real)

  function TradeRecorded(s: DayState, t: Trade): DayState {
    var d := s.Strategy(t.strategy);
    var exit := ExitRef(t.exit, t.instrument);
    var d1 := d.(realized := d.realized + t.net);
    var d2 :=
      if d.lastExit == Some(exit) then d1
      else d1.(lastExit := Some(exit), trades := d.trades + 1,
               losses := if t.net < 0.0 then d.losses + 1 else if 0.0 < t.net then 0 else d.losses);
    s.(realized := s.realized + t.net, exited := s.exited + {t.instrument},
       strategies := s.strategies[t.strategy := d2])
  }

  function Acknowledged(s: DayState, strategy: string): DayState {
    s.(strategies := s.strategies[strategy := s.Strategy(strategy).(losses := 0)],
       breaches := s.breaches - {(ConsecutiveLosses, strategy)})
  }

  function Marked(s: DayState, now: int, equity: real): DayState {
    s.(last := equity, lastTick := Some(now),
       low := if equity < s.low then equity else s.low,
       peak := if s.peak < equity then equity else s.peak)
  }

  function GlobalBreaches(l: Limits, s: DayState, now: int): set<Breach> {
    (if 0.0 < s.sod && s.sod * l.dailyLossPct <= s.sod - s.last then {Breach(DailyLoss, "global", l.dailyLossAction)} else {})
    + (if l.maxDrawdownPct <= s.Drawdown() then {Breach(DrawdownLimit, "global", l.drawdownAction)} else {})
    + (if l.rejectStormCount <= |Recent(s.rejectTs, now, l.rejectStormWindow)|
       then {Breach(RejectStorm, "global", HaltNew)} else {})
  }

  function StrategyBreaches(l: Limits, s: DayState, name: string, unrealized: real): set<Breach> {
    var d := s.Strategy(name);
    (if 0.0 < s.sod && s.sod * l.strategyLossPct <= -(d.realized + unrealized)
     then {Breach(StrategyLoss, name, HaltNew)} else {})
    + (if l.maxConsecLosses <= d.losses then {Breach(ConsecutiveLosses, name, HaltNew)} else {})
  }

  function Unrealized(u: map<string, real>, name: string): real { if name in u then u[name] else 0.0 }

  /** Every limit crossed at the tick. */
  ghost function Found(l: Limits, s: DayState, now: int, u: map<string, real>): set<Breach> {
    GlobalBreaches(l, s, now)
    + set n, b | n in s.strategies.Keys + u.Keys && b in StrategyBreaches(l, s, n, Unrealized(u, n)) :: b
  }

  /** Those not raised yet today. */
  ghost function Raised(l: Limits, s: DayState, now: int, u: map<string, real>): set<Breach> {
    set b | b in Found(l, s, now, u) && b.Mark() !in s.breaches
  }

  ghost function Ticked(l: Limits, s: DayState, now: int, equity: real, u: map<string, real>): DayState {
    var m := Marked(s, now, equity);
    m.(breaches := m.breaches + set b | b in Raised(l, m, now, u) :: b.Mark())
  }

  // ---- Runs -----------------------------------------------------------------------------------------

  datatype Op =
    | Start(today: int, sod: real)
    | RecordOrder(today: int, now: int, strategy: string, instrument: string, reduces: bool)
    | RecordReject(today: int, now: int)
    | RecordTrade(today: int, trade: Trade)
    | Acknowledge(strategy: string)
    | Tick(today: int, now: int, equity: real, unrealized: map<string, real>)
    | Reload

  function Acks(s: DayState, strategy: string): bool { strategy in s.strategies && s.strategies[strategy].losses != 0 }

  /** The tracker after an operation; unchanged where the source raises. */
  ghost function Step(l: Limits, t: Tracker, op: Op): Tracker {
    match op
    case Start(today, sod) => var r := StartDay(t, today, sod); if r.Some? then r.value else t
    case RecordOrder(today, now, strategy, instrument, reduces) =>
      var c := Current(t, today, None);
      if c.None? || c.value.state.None? then t
      else Save(c.value, OrderRecorded(c.value.state.value, now, strategy, instrument, reduces))
    case RecordReject(today, now) =>
      var c := Current(t, today, None);
      if c.None? || c.value.state.None? then t
      else
        var s := c.value.state.value;
        Save(c.value, s.(rejectTs := Recent(s.rejectTs, now, l.rejectStormWindow) + [now]))
    case RecordTrade(today, trade) =>
      var c := Current(t, today, None);
      if c.None? || c.value.state.None? then t else Save(c.value, TradeRecorded(c.value.state.value, trade))
    case Acknowledge(strategy) =>
      if t.state.None? || !Acks(t.state.value, strategy) then t else Save(t, Acknowledged(t.state.value, strategy))
    case Tick(today, now, equity, u) =>
      var c := Current(t, today, Some(equity));
      if c.None? || c.value.state.None? then t else Save(c.value, Ticked(l, c.value.state.value, now, equity, u))
    case Reload => t.(state := t.saved)
  }

  /** The breaches a tick returns. */
  ghost function Returned(l: Limits, t: Tracker, op: Op): set<Breach> {
    if !op.Tick? then {} else
      var c := Current(t, op.today, Some(op.equity));
      if c.None? || c.value.state.None? then {}
      else Raised(l, Marked(c.value.state.value, op.now, op.equity), op.now, op.unrealized)
  }

  ghost function Run(l: Limits, t: Tracker, ops: seq<Op>): Tracker {
    if ops == [] then t else Step(l, Run(l, t, ops[..|ops| - 1]), ops[|ops| - 1])
  }

  const FRESH := Tracker(None, None, [])

  // ---- Invariants of every run ----------------------------------------------------------------------

  function Realized(strategies: map<string, StrategyDay>): map<string, real> {
    map n | n in strategies :: strategies[n].realized
  }

  ghost function StrategyTotal(s: DayState): real { Sum(Realized(s.strategies)) }

  ghost predicate Sound(s: DayState) {
    && s.low <= s.last <= s.peak && s.low <= s.sod <= s.peak
    && s.realized == StrategyTotal(s)
  }

  ghost predicate SoundTracker(t: Tracker) {
    && t.saved == t.state
    && (t.state.Some? ==> Sound(t.state.value))
    && (forall d | d in t.rolled :: Sound(d))
  }

  lemma StrategyUpdate(s: DayState, name: string, d: StrategyDay)
    ensures StrategyTotal(s.(strategies := s.strategies[name := d]))
         == StrategyTotal(s) + d.realized - s.Strategy(name).realized
  {
    SumUpdate(Realized(s.strategies), name, d.realized);
    assert Realized(s.strategies[name := d]) == Realized(s.strategies)[name := d.realized];
  }

  lemma StartDaySound(t: Tracker, today: int, sod: real)
    requires SoundTracker(t)
    ensures var r := StartDay(t, today, sod); r.Some? ==> SoundTracker(r.value) && r.value.state.Some?
  {
    var r := StartDay(t, today, sod);
    if r.Some? && r.value != t {
      SumZero(Realized(r.value.state.value.strategies));
    }
  }

  lemma OrderKeepsSound(s: DayState, now: int, strategy: string, instrument: string, reduces: bool)
    requires Sound(s)
    ensures Sound(OrderRecorded(s, now, strategy, instrument, reduces))
  {
    hide Recent;
    var s' := OrderRecorded(s, now, strategy, instrument, reduces);
    StrategyUpdate(s, strategy, s'.strategies[strategy]);
    assert s'.strategies == s.strategies[strategy := s'.strategies[strategy]];
  }

  lemma TradeKeepsSound(s: DayState, t: Trade)
    requires Sound(s)
    ensures Sound(TradeRecorded(s, t))
  {
    var s' := TradeRecorded(s, t);
    StrategyUpdate(s, t.strategy, s'.strategies[t.strategy]);
  }

  lemma StepSound(l: Limits, t: Tracker, op: Op)
    requires SoundTracker(t)
    ensures SoundTracker(Step(l, t, op))
  {
    hide Sound, OrderRecorded, TradeRecorded, StartDay;
    match op
    case Start(today, sod) => StartDaySound(t, today, sod);
    case RecordOrder(today, now, strategy, instrument, reduces) =>
      CurrentSound(t, today, None);
      var c := Current(t, today, None);
      if c.Some? { OrderKeepsSound(c.value.state.value, now, strategy, instrument, reduces); }
    case RecordReject(today, now) =>
      CurrentSound(t, today, None);
      var c := Current(t, today, None);
      if c.Some? { RejectKeepsSound(c.value.state.value, now, l.rejectStormWindow); }
    case RecordTrade(today, trade) =>
      CurrentSound(t, today, None);
      var c := Current(t, today, None);
      if c.Some? { TradeKeepsSound(c.value.state.value, trade); }
    case Acknowledge(strategy) => if t.state.Some? { AckKeepsSound(t.state.value, strategy); }
    case Tick(today, now, equity, u) =>
      CurrentSound(t, today, Some(equity));
      var c := Current(t, today, Some(equity));
      if c.Some? { TickKeepsSound(l, c.value.state.value, now, equity, u); }
    case Reload =>
  }

  lemma CurrentSound(t: Tracker, today: int, hint: Option<real>)
    requires SoundTracker(t)
    ensures var c := Current(t, today, hint); c.Some? ==> SoundTracker(c.value) && c.value.state.Some?
  {
    hide Sound, StartDay;
    if hint.Some? { StartDaySound(t, today, hint.value); }
    if t.state.Some? { StartDaySound(t, today, t.state.value.last); }
  }

  lemma RejectKeepsSound(s: DayState, now: int, window: int)
    requires Sound(s)
    ensures Sound(s.(rejectTs := Recent(s.rejectTs, now, window) + [now]))
  {
    hide Recent;
    assert (s.(rejectTs := Recent(s.rejectTs, now, window) + [now])).strategies == s.strategies;
  }

  lemma AckKeepsSound(s: DayState, strategy: string)
    requires Sound(s)
    ensures Sound(Acknowledged(s, strategy))
  {
    StrategyUpdate(s, strategy, s.Strategy(strategy).(losses := 0));
  }

  lemma TickKeepsSound(l: Limits, s: DayState, now: int, equity: real, u: map<string, real>)
    requires Sound(s)
    ensures Sound(Ticked(l, s, now, equity, u))
  {
    hide Raised;
    assert Ticked(l, s, now, equity, u).strategies == s.strategies;
  }

  /**
   In every run, restarts anywhere: low <= last <= peak, low <= start of day <= peak, the day's P&L
   is the sum over its strategies, on today and every rolled day; and what is saved is what is held.
   */
  lemma {:induction false} RunSound(l: Limits, ops: seq<Op>)
    ensures SoundTracker(Run(l, FRESH, ops))
  {
    if ops != [] {
      hide Step, Sound;
      RunSound(l, ops[..|ops| - 1]);
      StepSound(l, Run(l, FRESH, ops[..|ops| - 1]), ops[|ops| - 1]);
    }
  }

  /** Restarts inserted between any two operations change nothing after them. */
  lemma RestartInvisible(l: Limits, before: seq<Op>, op: Op)
    ensures Step(l, Run(l, FRESH, before), Reload) == Run(l, FRESH, before)
    ensures Returned(l, Step(l, Run(l, FRESH, before), Reload), op) == Returned(l, Run(l, FRESH, before), op)
  {
    RunSound(l, before);
  }

  // ---- The peak -------------------------------------------------------------------------------------

  lemma StepPeak(l: Limits, t: Tracker, op: Op)
    requires SoundTracker(t) && t.state.Some?
    ensures Step(l, t, op).state.Some? && t.state.value.peak <= Step(l, t, op).state.value.peak
  {
    hide Recent, Raised, Sum;
  }

  /** The peak never falls, within a day or across days. */
  lemma {:induction false} PeakNeverFalls(l: Limits, before: seq<Op>, after: seq<Op>)
    requires Run(l, FRESH, before).state.Some?
    ensures
      var end := Run(l, Run(l, FRESH, before), after);
      SoundTracker(end) && end.state.Some? && Run(l, FRESH, before).state.value.peak <= end.state.value.peak
  {
    RunSound(l, before);
    if after != [] {
      hide Step, SoundTracker;
      var t := Run(l, FRESH, before);
      PeakNeverFalls(l, before, after[..|after| - 1]);
      var u := Run(l, t, after[..|after| - 1]);
      StepPeak(l, u, after[|after| - 1]);
      StepSound(l, u, after[|after| - 1]);
    }
  }

  // ---- Breaches -------------------------------------------------------------------------------------

  predicate OnDay(op: Op, today: int) {
    match op
    case Start(d, _) => d == today
    case RecordOrder(d, _, _, _, _) => d == today
    case RecordReject(d, _) => d == today
    case RecordTrade(d, _) => d == today
    case Tick(d, _, _, _) => d == today
    case _ => true
  }

  ghost predicate Marks(t: Tracker, today: int, mark: (Code, string)) {
    t.saved == t.state && t.state.Some? && t.state.value.day == today && mark in t.state.value.breaches
  }

  lemma StepKeepsMark(l: Limits, t: Tracker, op: Op, today: int, mark: (Code, string))
    requires Marks(t, today, mark) && OnDay(op, today)
    requires mark != (ConsecutiveLosses, mark.1) || op != Acknowledge(mark.1)
    ensures Marks(Step(l, t, op), today, mark)
    ensures forall b | b in Returned(l, t, op) :: b.Mark() != mark
  {
    hide Recent, Found;
  }

  /** A returned breach is new, and is marked from then on. */
  lemma ReturnedIsMarked(l: Limits, t: Tracker, op: Op, b: Breach)
    requires SoundTracker(t) && b in Returned(l, t, op)
    ensures op.Tick? && Marks(Step(l, t, op), op.today, b.Mark())
    ensures !Marks(t, op.today, b.Mark())
  {
    hide Recent, Found, Sum;
  }

  /**
   Once a tick has returned a breach, no later operation of that IST day returns it again, whatever
   happens in between, restarts included, unless its streak is acknowledged.
   */
  lemma {:induction false} BreachOncePerDay(l: Limits, t: Tracker, tick: Op, b: Breach, later: seq<Op>, next: Op)
    requires SoundTracker(t) && b in Returned(l, t, tick)
    requires forall op | op in later + [next] :: OnDay(op, tick.today)
    requires b.code == ConsecutiveLosses ==> Acknowledge(b.name) !in later
    ensures
      var end := Run(l, Step(l, t, tick), later);
      Marks(end, tick.today, b.Mark()) && forall c | c in Returned(l, end, next) :: c.Mark() != b.Mark()
  {
    hide Step, Returned;
    var end := Run(l, Step(l, t, tick), later);
    ReturnedIsMarked(l, t, tick, b);
    if later != [] {
      var init, op := later[..|later| - 1], later[|later| - 1];
      assert op in later && forall o | o in init + [op] :: o in later + [next];
      BreachOncePerDay(l, t, tick, b, init, op);
      StepKeepsMark(l, Run(l, Step(l, t, tick), init), op, tick.today, b.Mark());
    }
    assert next in later + [next];
    MarkedNotReturned(l, end, next, tick.today, b.Mark());
  }

  lemma MarkedNotReturned(l: Limits, t: Tracker, op: Op, today: int, mark: (Code, string))
    requires Marks(t, today, mark) && OnDay(op, today)
    ensures forall b | b in Returned(l, t, op) :: b.Mark() != mark
  {
    hide Recent, Found;
  }

  // ---- Streaks --------------------------------------------------------------------------------------

  function LossesOf(t: Tracker, strategy: string): nat {
    if t.state.None? then 0 else t.state.value.Strategy(strategy).losses
  }

  /** A losing close: the first piece of an exit, as the strategy stands when it is recorded, with a negative result. */
  predicate LosingClose(t: Tracker, op: Op, strategy: string) {
    && op.RecordTrade? && op.trade.strategy == strategy && op.trade.net < 0.0
    && t.state.Some? && t.state.value.day <= op.today
    && t.state.value.Strategy(strategy).lastExit != Some(ExitRef(op.trade.exit, op.trade.instrument))
  }

  /** Losing closes of a strategy over a stretch of operations: pieces of one exit count once. */
  ghost function LosingCloses(l: Limits, t: Tracker, ops: seq<Op>, strategy: string): nat {
    if ops == [] then 0 else
      LosingCloses(l, t, ops[..|ops| - 1], strategy)
        + if LosingClose(Run(l, t, ops[..|ops| - 1]), ops[|ops| - 1], strategy) then 1 else 0
  }

  /** An operation lengthens a streak exactly when it is a losing close, and then by one. */
  lemma StepLosses(l: Limits, t: Tracker, op: Op, strategy: string)
    requires SoundTracker(t)
    ensures LossesOf(t, strategy) < LossesOf(Step(l, t, op), strategy) <==> LosingClose(t, op, strategy)
    ensures LossesOf(Step(l, t, op), strategy) <= LossesOf(t, strategy) + 1
  {
    hide Recent, Raised, Sum;
  }

  lemma {:induction false} RunLosses(l: Limits, t: Tracker, ops: seq<Op>, strategy: string)
    requires SoundTracker(t)
    ensures SoundTracker(Run(l, t, ops))
    ensures LossesOf(Run(l, t, ops), strategy) <= LossesOf(t, strategy) + LosingCloses(l, t, ops, strategy)
  {
    if ops != [] {
      hide Step, SoundTracker, LossesOf, LosingClose;
      var init, op := ops[..|ops| - 1], ops[|ops| - 1];
      RunLosses(l, t, init, strategy);
      StepLosses(l, Run(l, t, init), op, strategy);
      StepSound(l, Run(l, t, init), op);
    }
  }

  lemma NoStreakNoBreach(l: Limits, t: Tracker, op: Op, strategy: string)
    requires SoundTracker(t) && LossesOf(t, strategy) < l.maxConsecLosses
    ensures forall b | b in Returned(l, t, op) :: b.Mark() != (ConsecutiveLosses, strategy)
  {
    hide Recent, Sum;
  }

  /**
   After an acknowledgement, and until the strategy has had as many losing closes as the limit, no
   operation returns its streak breach, whatever else happens on however many days.
   */
  lemma StreakNeedsNewLosses(l: Limits, t: Tracker, strategy: string, ops: seq<Op>, next: Op)
    requires SoundTracker(t)
    requires LosingCloses(l, Step(l, t, Acknowledge(strategy)), ops, strategy) < l.maxConsecLosses
    ensures forall b | b in Returned(l, Run(l, Step(l, t, Acknowledge(strategy)), ops), next) ::
              b.Mark() != (ConsecutiveLosses, strategy)
  {
    var a := Step(l, t, Acknowledge(strategy));
    assert LossesOf(a, strategy) == 0;
    StepSound(l, t, Acknowledge(strategy));
    hide Step, SoundTracker, LossesOf, Returned;
    RunLosses(l, a, ops, strategy);
    NoStreakNoBreach(l, Run(l, a, ops), next, strategy);
  }

  /** The streak after a result. */
  function StreakAfter(losses: nat, net: real): nat {
    if net < 0.0 then losses + 1 else if 0.0 < net then 0 else losses
  }

  function RecordAll(s: DayState, pieces: seq<Trade>): DayState {
    if pieces == [] then s else TradeRecorded(RecordAll(s, pieces[..|pieces| - 1]), pieces[|pieces| - 1])
  }

  function NetTotal(pieces: seq<Trade>): real {
    if pieces == [] then 0.0 else NetTotal(pieces[..|pieces| - 1]) + pieces[|pieces| - 1].net
  }

  /** The pieces of one exit. */
  ghost predicate OneExit(pieces: seq<Trade>, first: Trade) {
    && pieces != [] && pieces[0] == first
    && forall t | t in pieces ::
         t.strategy == first.strategy && t.instrument == first.instrument && t.exit == first.exit
  }

  /**
   An exit of any number of pieces counts as one trade with the result of its first piece, a win, a
   loss or neither, whatever the others earn; all of them count towards the P&L.
   */
  lemma {:induction false} FirstPieceDecides(s: DayState, pieces: seq<Trade>, first: Trade)
    requires OneExit(pieces, first)
    requires s.Strategy(first.strategy).lastExit != Some(ExitRef(first.exit, first.instrument))
    ensures
      var d, d' := s.Strategy(first.strategy), RecordAll(s, pieces).Strategy(first.strategy);
      && d'.losses == StreakAfter(d.losses, first.net) && d'.trades == d.trades + 1
      && d'.realized == d.realized + NetTotal(pieces)
      && d'.lastExit == Some(ExitRef(first.exit, first.instrument))
  {
    var init, last := pieces[..|pieces| - 1], pieces[|pieces| - 1];
    assert last in pieces;
    if init == [] {
      assert last == first;
    } else {
      assert OneExit(init, first) by { assert forall t | t in init :: t in pieces; }
      FirstPieceDecides(s, init, first);
    }
  }

  /**
   That is the exit's own result, for the streak, if and only if the first piece and the whole exit
   agree on being a loss, and agree on being a win unless there is no streak to end.
   */
  lemma FirstPieceRightExactly(s: DayState, pieces: seq<Trade>, first: Trade)
    requires OneExit(pieces, first)
    requires s.Strategy(first.strategy).lastExit != Some(ExitRef(first.exit, first.instrument))
    ensures
      var losses, total := s.Strategy(first.strategy).losses, NetTotal(pieces);
      (RecordAll(s, pieces).Strategy(first.strategy).losses == StreakAfter(losses, total)) <==>
      ((first.net < 0.0 <==> total < 0.0) && ((0.0 < first.net <==> 0.0 < total) || losses == 0))
  {
    FirstPieceDecides(s, pieces, first);
  }

  // ---- Conservation ---------------------------------------------------------------------------------

  ghost function RolledTotal(days: seq<DayState>): real {
    if days == [] then 0.0 else RolledTotal(days[..|days| - 1]) + days[|days| - 1].realized
  }

  ghost function TrackedPnl(t: Tracker): real {
    RolledTotal(t.rolled) + if t.state.Some? then t.state.value.realized else 0.0
  }

  function TradesNet(ops: seq<Op>): real {
    if ops == [] then 0.0 else
      TradesNet(ops[..|ops| - 1]) + if ops[|ops| - 1].RecordTrade? then ops[|ops| - 1].trade.net else 0.0
  }

  /** The day of an operation never lies before the tracker's. */
  ghost predicate Forward(t: Tracker, op: Op) {
    t.state.Some? && (op.Acknowledge? || op.Reload? || t.state.value.day <= op.today)
  }

  ghost predicate ForwardRun(l: Limits, t: Tracker, ops: seq<Op>) {
    ops != [] ==> ForwardRun(l, t, ops[..|ops| - 1]) && Forward(Run(l, t, ops[..|ops| - 1]), ops[|ops| - 1])
  }

  lemma StartKeepsPnl(t: Tracker, today: int, sod: real)
    requires t.state.Some? && t.state.value.day <= today
    ensures var r := StartDay(t, today, sod); r.Some? && r.value.state.Some? && TrackedPnl(r.value) == TrackedPnl(t)
  {
    if t.state.value.day < today {
      assert (t.rolled + [t.state.value])[..|t.rolled|] == t.rolled;
    }
  }

  lemma StepPnl(l: Limits, t: Tracker, op: Op)
    requires SoundTracker(t) && Forward(t, op)
    ensures TrackedPnl(Step(l, t, op)) == TrackedPnl(t) + if op.RecordTrade? then op.trade.net else 0.0
  {
    hide Recent, Raised, Sum, StartDay, RolledTotal;
    if !op.Acknowledge? && !op.Reload? {
      StartKeepsPnl(t, op.today, t.state.value.last);
      if op.Start? { StartKeepsPnl(t, op.today, op.sod); }
      if op.Tick? { StartKeepsPnl(t, op.today, op.equity); }
    }
  }

  /** Realised P&L over all rolled days plus today is the sum of every trade recorded since the day was started. */
  lemma {:induction false} PnlConserved(l: Limits, t: Tracker, ops: seq<Op>)
    requires SoundTracker(t) && ForwardRun(l, t, ops)
    ensures SoundTracker(Run(l, t, ops))
    ensures TrackedPnl(Run(l, t, ops)) == TrackedPnl(t) + TradesNet(ops)
  {
    if ops != [] {
      hide Step, SoundTracker, TrackedPnl;
      var init, op := ops[..|ops| - 1], ops[|ops| - 1];
      PnlConserved(l, t, init);
      StepPnl(l, Run(l, t, init), op);
      StepSound(l, Run(l, t, init), op);
    }
  }
}

/** The latching kill switches of src/risk/kill_switch.py. */
module KillSwitch {
  import opened Domain
  import opened RiskState

  // ---- State ----------------------------------------------------------------------------------------

  datatype Level = Armed | HaltingNew | Flattening {
    function Rank(): nat { if Armed? then 0 else if HaltingNew? then 1 else 2 }
  }

  datatype SwitchId = Global | Broker | Strategy(name: string)

  /** What tripped a switch: a limit, the HALT file, or the API. */
  datatype Cause = Limit(code: Code) | HaltFile | Operator(reason: string) {
    predicate IsDailyLoss() { Limit? && (code == DailyLoss || code == StrategyLoss) }
  }

  datatype Record = Record(level: Level, cause: Option<Cause>, day: Option<int>)

  const ARMED := Record(Armed, None, None)

  /** Switches held, and the copy saved before each change is announced. */
  datatype Registry = Registry(switches: map<SwitchId, Record>, saved: map<SwitchId, Record>) {
    function At(id: SwitchId): Record { if id in switches then switches[id] else ARMED }
  }

  // ---- Operations -----------------------------------------------------------------------------------

  function Set(r: Registry, id: SwitchId, level: Level, cause: Option<Cause>, today: int): Registry {
    var s := r.switches[id := Record(level, cause, Some(today))];
    Registry(s, s)
  }

  function Trip(r: Registry, id: SwitchId, target: Level, cause: Option<Cause>, today: int): Registry {
    if target.Rank() <= r.At(id).level.Rank() then r else Set(r, id, target, cause, today)
  }

  function Target(b: Breach): Level { if b.action == FlattenAll then Flattening else HaltingNew }

  function SwitchOf(b: Breach): SwitchId {
    if b.code == StrategyLoss || b.code == ConsecutiveLosses then Strategy(b.name) else Global
  }

  function Apply(r: Registry, breaches: seq<Breach>, today: int): Registry
    decreases |breaches|
  {
    if breaches == [] then r else
      var b := breaches[0];
      Apply(Trip(r, SwitchOf(b), Target(b), Some(Limit(b.code)), today), breaches[1..], today)
  }

  /** A daily-loss trip from an earlier day. */
  predicate Rearms(rec: Record, today: int) {
    && rec.level != Armed
    && rec.cause.Some? && rec.cause.value.IsDailyLoss()
    && rec.day.Some? && rec.day.value < today
  }

  function AfterDay(id: SwitchId, rec: Record, today: int): Record {
    if id != Broker && Rearms(rec, today) then Record(Armed, None, Some(today)) else rec
  }

  /** new_day over the global switch and every strategy's, never the broker's. */
  function Rearmed(r: Registry, rearm: bool, today: int): Registry {
    if !rearm || forall id | id in r.switches :: id == Broker || !Rearms(r.switches[id], today) then r
    else
      var s := map id | id in r.switches :: AfterDay(id, r.switches[id], today);
      Registry(s, s)
  }

  datatype SwitchOp =
    | TripSwitch(id: SwitchId, target: Level, cause: Option<Cause>, today: int)
    | ResumeSwitch(id: SwitchId, haltFile: bool, today: int)
    | ApplyBreaches(breaches: seq<Breach>, today: int)
    | CheckHaltFile(present: bool, saysFlatten: bool, today: int)
    | DayStarted(today: int)
    | Restart

  /** A trip to ARMED is an error, and so is resuming Global under a HALT file: neither changes anything. */
  function SwitchStep(r: Registry, rearm: bool, op: SwitchOp): Registry {
    match op
    case TripSwitch(id, target, cause, today) => if target == Armed then r else Trip(r, id, target, cause, today)
    case ResumeSwitch(id, haltFile, today) =>
      if r.At(id).level == Armed || (id == Global && haltFile) then r else Set(r, id, Armed, None, today)
    case ApplyBreaches(breaches, today) => Apply(r, breaches, today)
    case CheckHaltFile(present, saysFlatten, today) =>
      if !present then r else Trip(r, Global, if saysFlatten then Flattening else HaltingNew, Some(HaltFile), today)
    case DayStarted(today) => Rearmed(r, rearm, today)
    case Restart => r.(switches := r.saved)
  }

  function SwitchRun(r: Registry, rearm: bool, ops: seq<SwitchOp>): Registry {
    if ops == [] then r else SwitchStep(SwitchRun(r, rearm, ops[..|ops| - 1]), rearm, ops[|ops| - 1])
  }

  // ---- Latching -------------------------------------------------------------------------------------

  lemma {:induction false} ApplyEscalates(r: Registry, breaches: seq<Breach>, today: int, id: SwitchId)
    requires r.saved == r.switches
    ensures Apply(r, breaches, today).saved == Apply(r, breaches, today).switches
    ensures r.At(id).level.Rank() <= Apply(r, breaches, today).At(id).level.Rank()
    decreases |breaches|
  {
    if breaches != [] {
      var b := breaches[0];
      ApplyEscalates(Trip(r, SwitchOf(b), Target(b), Some(Limit(b.code)), today), breaches[1..], today, id);
    }
  }

  /** Whether a breach is about this switch: a strategy's limits are for its own, all others for the global one. */
  predicate About(b: Breach, id: SwitchId) {
    match b.code
    case StrategyLoss => id == Strategy(b.name)
    case ConsecutiveLosses => id == Strategy(b.name)
    case _ => id == Global
  }

  /** The rank a breach asks of a switch: 1 to halt, 2 to flatten, 0 when it is about another. */
  function Asks(b: Breach, id: SwitchId): nat {
    if !About(b, id) then 0 else match b.action case HaltNew => 1 case FlattenAll => 2
  }

  /** The most any of them asks. */
  function MostAsked(breaches: seq<Breach>, id: SwitchId): nat {
    if breaches == [] then 0 else
      var rest, first := MostAsked(breaches[1..], id), Asks(breaches[0], id);
      if rest < first then first else rest
  }

  function Higher(a: nat, b: nat): nat { if a < b then b else a }

  /** The breach that raised a switch to a rank: the first to ask for it. */
  ghost predicate RaisedBy(breaches: seq<Breach>, id: SwitchId, rank: nat, rec: Record, today: int) {
    exists i | 0 <= i < |breaches| ::
      && Asks(breaches[i], id) == rank && (forall j | 0 <= j < i :: Asks(breaches[j], id) < rank)
      && rec.cause == Some(Limit(breaches[i].code)) && rec.day == Some(today)
  }

  /** One trip: to the higher of where it was and what is asked, and only then with a new cause and day. */
  lemma TripExactly(r: Registry, id: SwitchId, target: Level, cause: Option<Cause>, today: int, at: SwitchId)
    ensures
      var now, was := Trip(r, id, target, cause, today).At(at), r.At(at);
      && now.level.Rank() == Higher(was.level.Rank(), if at == id then target.Rank() else 0)
      && (now.level.Rank() == was.level.Rank() ==> now == was)
      && (was.level.Rank() < now.level.Rank() ==> now.cause == cause && now.day == Some(today))
  {
  }

  lemma BreachTrips(r: Registry, b: Breach, today: int, id: SwitchId)
    ensures
      var now, was := Trip(r, SwitchOf(b), Target(b), Some(Limit(b.code)), today).At(id), r.At(id);
      && now.level.Rank() == Higher(was.level.Rank(), Asks(b, id))
      && (Asks(b, id) <= was.level.Rank() ==> now == was)
      && (was.level.Rank() < Asks(b, id) ==> now.cause == Some(Limit(b.code)) && now.day == Some(today))
  {
    TripExactly(r, SwitchOf(b), Target(b), Some(Limit(b.code)), today, id);
  }

  /**
   Acting on breaches: every switch ends exactly at the higher of where it was and the most that is
   asked of it. One that is asked no more keeps its whole record; one that rose carries the code of
   the breach that raised it and the day.
   */
  lemma {:induction false} ApplyExactly(r: Registry, breaches: seq<Breach>, today: int, id: SwitchId)
    ensures
      var now, was, most := Apply(r, breaches, today).At(id), r.At(id), MostAsked(breaches, id);
      && now.level.Rank() == Higher(was.level.Rank(), most)
      && (most <= was.level.Rank() ==> now == was)
      && (was.level.Rank() < most ==> RaisedBy(breaches, id, most, now, today))
    decreases |breaches|
  {
    if breaches != [] {
      var b, rest := breaches[0], breaches[1..];
      var mid := Trip(r, SwitchOf(b), Target(b), Some(Limit(b.code)), today);
      BreachTrips(r, b, today, id);
      ApplyExactly(mid, rest, today, id);
      MostIsMost(rest, id);
      var now, most := Apply(r, breaches, today).At(id), MostAsked(breaches, id);
      hide Trip, Asks, RaisedBy;
      if r.At(id).level.Rank() < most {
        if mid.At(id).level.Rank() < MostAsked(rest, id) {
          RaisedLater(breaches, id, most, now, today);
        } else {
          RaisedFirst(breaches, id, most, now, today);
        }
      }
    }
  }

  lemma RaisedFirst(breaches: seq<Breach>, id: SwitchId, rank: nat, rec: Record, today: int)
    requires breaches != [] && Asks(breaches[0], id) == rank
    requires rec.cause == Some(Limit(breaches[0].code)) && rec.day == Some(today)
    ensures RaisedBy(breaches, id, rank, rec, today)
  {
  }

  lemma RaisedLater(breaches: seq<Breach>, id: SwitchId, rank: nat, rec: Record, today: int)
    requires breaches != [] && Asks(breaches[0], id) < rank && RaisedBy(breaches[1..], id, rank, rec, today)
    ensures RaisedBy(breaches, id, rank, rec, today)
  {
    hide Asks;
    var rest := breaches[1..];
    var i :| 0 <= i < |rest| && Asks(rest[i], id) == rank && (forall j | 0 <= j < i :: Asks(rest[j], id) < rank)
      && rec.cause == Some(Limit(rest[i].code)) && rec.day == Some(today);
    assert breaches[i + 1] == rest[i];
    forall j | 0 <= j < i + 1 ensures Asks(breaches[j], id) < rank {
      if 0 < j { assert breaches[j] == rest[j - 1]; }
    }
  }

  lemma {:induction false} MostIsMost(breaches: seq<Breach>, id: SwitchId)
    ensures forall b | b in breaches :: Asks(b, id) <= MostAsked(breaches, id)
  {
    if breaches != [] {
      MostIsMost(breaches[1..], id);
      assert breaches == [breaches[0]] + breaches[1..];
    }
  }

  /** The HALT file: the global switch ends at the higher of where it was and what the file says; no other moves. */
  lemma HaltFileExactly(r: Registry, rearm: bool, present: bool, saysFlatten: bool, today: int, id: SwitchId)
    ensures
      var now, was := SwitchStep(r, rearm, CheckHaltFile(present, saysFlatten, today)).At(id), r.At(id);
      var asks := if !present || id != Global then 0 else if saysFlatten then 2 else 1;
      && now.level.Rank() == Higher(was.level.Rank(), asks)
      && (asks <= was.level.Rank() ==> now == was)
      && (was.level.Rank() < asks ==> now.cause == Some(HaltFile) && now.day == Some(today))
  {
  }

  /** Tripped by a daily loss, the account's or a strategy's, on a day before this one. */
  predicate DailyLossTrip(rec: Record, today: int) {
    && (rec.level == HaltingNew || rec.level == Flattening)
    && (rec.cause == Some(Limit(DailyLoss)) || rec.cause == Some(Limit(StrategyLoss)))
    && rec.day.Some? && rec.day.value < today
  }

  /** The two ways a switch is ever lowered. */
  predicate Lowers(r: Registry, rearm: bool, op: SwitchOp, id: SwitchId) {
    || (op.ResumeSwitch? && op.id == id && r.At(id).level != Armed && !(id == Global && op.haltFile))
    || (op.DayStarted? && rearm && id != Broker && DailyLossTrip(r.At(id), op.today))
  }

  /** An operation lowers a switch exactly when it is its resume, or the configured re-arm of an earlier day's daily loss. */
  lemma LoweredExactly(r: Registry, rearm: bool, op: SwitchOp, id: SwitchId)
    requires r.saved == r.switches
    ensures SwitchStep(r, rearm, op).saved == SwitchStep(r, rearm, op).switches
    ensures SwitchStep(r, rearm, op).At(id).level.Rank() < r.At(id).level.Rank() <==> Lowers(r, rearm, op, id)
    ensures Lowers(r, rearm, op, id) ==> SwitchStep(r, rearm, op).At(id).level == Armed
  {
    if op.ApplyBreaches? {
      ApplyEscalates(r, op.breaches, op.today, id);
    } else if op.DayStarted? && rearm && id in r.switches && id != Broker && Rearms(r.switches[id], op.today) {
      assert Rearmed(r, rearm, op.today).switches[id].level == Armed;
    }
  }

  /** A lowered switch is armed from that day with no cause; a new day leaves every other record whole. */
  lemma LoweredRecord(r: Registry, rearm: bool, op: SwitchOp, id: SwitchId)
    requires r.saved == r.switches && (op.ResumeSwitch? || op.DayStarted?)
    ensures SwitchStep(r, rearm, op).At(id) == if Lowers(r, rearm, op, id) then Record(Armed, None, Some(op.today)) else r.At(id)
  {
    if op.DayStarted? && rearm && id in r.switches && id != Broker && Rearms(r.switches[id], op.today) {
      assert Rearmed(r, rearm, op.today).switches[id] == Record(Armed, None, Some(op.today));
    }
  }

  ghost predicate NeverLowers(r: Registry, rearm: bool, ops: seq<SwitchOp>, id: SwitchId) {
    ops != [] ==>
      && NeverLowers(r, rearm, ops[..|ops| - 1], id)
      && !Lowers(SwitchRun(r, rearm, ops[..|ops| - 1]), rearm, ops[|ops| - 1], id)
  }

  /** Switches latch over whole runs, restarts included. */
  lemma {:induction false} Latched(r: Registry, rearm: bool, ops: seq<SwitchOp>, id: SwitchId)
    requires r.saved == r.switches && NeverLowers(r, rearm, ops, id)
    ensures SwitchRun(r, rearm, ops).saved == SwitchRun(r, rearm, ops).switches
    ensures r.At(id).level.Rank() <= SwitchRun(r, rearm, ops).At(id).level.Rank()
  {
    if ops != [] {
      hide SwitchStep, Lowers;
      Latched(r, rearm, ops[..|ops| - 1], id);
      LoweredExactly(SwitchRun(r, rearm, ops[..|ops| - 1]), rearm, ops[|ops| - 1], id);
    }
  }

  /** Without the configured re-arm, only a resume of that very switch lowers it. */
  lemma {:induction false} LatchedWithoutRearm(r: Registry, ops: seq<SwitchOp>, id: SwitchId)
    requires r.saved == r.switches && forall op | op in ops :: op.ResumeSwitch? ==> op.id != id
    ensures NeverLowers(r, false, ops, id)
    ensures r.At(id).level.Rank() <= SwitchRun(r, false, ops).At(id).level.Rank()
  {
    if ops != [] {
      assert forall op | op in ops[..|ops| - 1] :: op in ops;
      assert ops[|ops| - 1] in ops;
      LatchedWithoutRearm(r, ops[..|ops| - 1], id);
    }
    Latched(r, false, ops, id);
  }

  /**
   The re-arm sees only the latest cause: an operator's halt that a daily loss then escalates is
   lifted with it the next day, although nobody resumed it.
   */
  lemma RearmLiftsOperatorHalt(reason: string, day: int)
    ensures
      var ops := [TripSwitch(Global, HaltingNew, Some(Operator(reason)), day),
                  ApplyBreaches([Breach(DailyLoss, "global", FlattenAll)], day),
                  DayStarted(day + 1)];
      SwitchRun(Registry(map[], map[]), true, ops).At(Global).level == Armed
  {
    var r0 := Registry(map[], map[]);
    var halt := TripSwitch(Global, HaltingNew, Some(Operator(reason)), day);
    var loss := Breach(DailyLoss, "global", FlattenAll);
    var r1 := SwitchStep(r0, true, halt);
    var r2 := SwitchStep(r1, true, ApplyBreaches([loss], day));
    assert r2 == Apply(Trip(r1, Global, Flattening, Some(Limit(DailyLoss)), day), [], day) by {
      assert [loss][1..] == [];
    }
    assert Rearms(r2.switches[Global], day + 1);
    var ops := [halt, ApplyBreaches([loss], day), DayStarted(day + 1)];
    assert ops[..2] == [halt, ApplyBreaches([loss], day)] && ops[..2][..1] == [halt] && [halt][..0] == [];
    assert SwitchRun(r0, true, [halt]) == r1;
    assert SwitchRun(r0, true, ops[..2]) == r2;
  }

  // ---- Resuming a strategy --------------------------------------------------------------------------

  /** The registry and the tracker that its on_resume acknowledges. */
  datatype Controls = Controls(registry: Registry, tracker: Tracker)

  /** resume: an armed switch, or a refusal, returns before on_resume; otherwise a strategy's streak is acknowledged. */
  ghost function Resumed(l: Limits, c: Controls, op: SwitchOp): Controls
    requires op.ResumeSwitch?
  {
    Controls(SwitchStep(c.registry, l.rearmOnNewDay, op),
             if op.id.Strategy? && Lowers(c.registry, l.rearmOnNewDay, op, op.id)
             then RiskState.Step(l, c.tracker, Acknowledge(op.id.name)) else c.tracker)
  }

  function ResumeOf(name: string, haltFile: bool, today: int): SwitchOp { ResumeSwitch(Strategy(name), haltFile, today) }

  /** After a resume the streak is nil exactly when the switch was tripped or there was no streak. */
  lemma ResumeClearsExactly(l: Limits, c: Controls, name: string, haltFile: bool, today: int)
    requires SoundTracker(c.tracker)
    ensures
      var after := Resumed(l, c, ResumeOf(name, haltFile, today));
      && after.registry.At(Strategy(name)).level == Armed && SoundTracker(after.tracker)
      && (LossesOf(after.tracker, name) == 0 <==>
            c.registry.At(Strategy(name)).level != Armed || LossesOf(c.tracker, name) == 0)
  {
    StepSound(l, c.tracker, Acknowledge(name));
    hide SoundTracker;
  }

  /**
   Resuming a tripped strategy arms its switch, and however long the run goes on, its streak breach
   is not raised again before as many further losing closes as the limit: the resume sticks.
   */
  lemma ResumeSticks(
    l: Limits, c: Controls, name: string, haltFile: bool, today: int, ops: seq<RiskState.Op>, next: RiskState.Op)
    requires SoundTracker(c.tracker)
    requires c.registry.At(Strategy(name)).level != Armed || LossesOf(c.tracker, name) == 0
    requires LosingCloses(l, Resumed(l, c, ResumeOf(name, haltFile, today)).tracker, ops, name) < l.maxConsecLosses
    ensures
      var after := Resumed(l, c, ResumeOf(name, haltFile, today));
      && after.registry.At(Strategy(name)).level == Armed
      && forall b | b in Returned(l, RiskState.Run(l, after.tracker, ops), next) :: b.Mark() != (ConsecutiveLosses, name)
  {
    var after := Resumed(l, c, ResumeOf(name, haltFile, today));
    ResumeClearsExactly(l, c, name, haltFile, today);
    hide Resumed, Returned, LossesOf, SoundTracker, RiskState.Run;
    RunLosses(l, after.tracker, ops, name);
    NoStreakNoBreach(l, RiskState.Run(l, after.tracker, ops), next, name);
  }

  /**
   Otherwise it does not stick: resuming an armed switch leaves a running streak alone, and some
   continuation with fewer losing closes than the limit raises its breach.
   */
  lemma ArmedResumeFails(l: Limits, c: Controls, name: string, haltFile: bool, today: int)
    requires SoundTracker(c.tracker)
    requires c.registry.At(Strategy(name)).level == Armed && 0 < LossesOf(c.tracker, name)
    ensures exists ops: seq<RiskState.Op>, next: RiskState.Op ::
      var t := Resumed(l, c, ResumeOf(name, haltFile, today)).tracker;
      && LosingCloses(l, t, ops, name) < l.maxConsecLosses
      && Breach(ConsecutiveLosses, name, HaltNew) in Returned(l, RiskState.Run(l, t, ops), next)
  {
    var t := c.tracker;
    assert Resumed(l, c, ResumeOf(name, haltFile, today)).tracker == t;
    var n := Max(0, l.maxConsecLosses - LossesOf(t, name));
    LossesCanFollow(l, t, name, n);
    var ops: seq<RiskState.Op> :| LosingCloses(l, t, ops, name) == n
      && LossesOf(RiskState.Run(l, t, ops), name) == LossesOf(t, name) + n && SoundTracker(RiskState.Run(l, t, ops))
      && RiskState.Run(l, t, ops).state.Some?;
    var end := RiskState.Run(l, t, ops);
    var next := Tick(end.state.value.day + 1, 0, 0.0, map[]);
    StreakBreaks(l, end, name, next);
  }

  /** The first tick of a later day raises a streak at the limit, whatever was raised before. */
  lemma StreakBreaks(l: Limits, t: Tracker, name: string, tick: RiskState.Op)
    requires t.state.Some? && l.maxConsecLosses <= LossesOf(t, name)
    requires tick.Tick? && t.state.value.day < tick.today
    ensures Breach(ConsecutiveLosses, name, HaltNew) in Returned(l, t, tick)
  {
    hide GlobalBreaches;
    var p := t.state.value;
    var c := Current(t, tick.today, Some(tick.equity)).value;
    assert name in p.strategies && name in c.state.value.strategies;
    var m := RiskState.Marked(c.state.value, tick.now, tick.equity);
    var b := Breach(ConsecutiveLosses, name, HaltNew);
    assert b in StrategyBreaches(l, m, name, Unrealized(tick.unrealized, name));
    assert b in Found(l, m, tick.now, tick.unrealized);
  }

  /** Any number of losing closes can follow. */
  lemma {:induction false} LossesCanFollow(l: Limits, t: Tracker, name: string, n: nat)
    requires SoundTracker(t) && t.state.Some?
    ensures exists ops: seq<RiskState.Op> ::
      && LosingCloses(l, t, ops, name) == n && LossesOf(RiskState.Run(l, t, ops), name) == LossesOf(t, name) + n
      && SoundTracker(RiskState.Run(l, t, ops)) && RiskState.Run(l, t, ops).state.Some?
  {
    hide SoundTracker;
    if n == 0 {
      assert LosingCloses(l, t, [], name) == 0 && RiskState.Run(l, t, []) == t;
    } else {
      LossesCanFollow(l, t, name, n - 1);
      var ops: seq<RiskState.Op> :| LosingCloses(l, t, ops, name) == n - 1
        && LossesOf(RiskState.Run(l, t, ops), name) == LossesOf(t, name) + n - 1
        && SoundTracker(RiskState.Run(l, t, ops)) && RiskState.Run(l, t, ops).state.Some?;
      var end := RiskState.Run(l, t, ops);
      var loss := LossAt(end, name);
      assert (ops + [loss])[..|ops|] == ops;
      StepSound(l, end, loss);
      StepLosses(l, end, loss, name);
      StepPeak(l, end, loss);
      hide RiskState.Step;
      assert RiskState.Run(l, t, ops + [loss]) == RiskState.Step(l, end, loss);
      assert LosingCloses(l, t, ops + [loss], name) == n;
    }
  }

  /** A losing exit other than the strategy's last. */
  function LossAt(t: Tracker, name: string): RiskState.Op
    requires t.state.Some?
  {
    var last := t.state.value.Strategy(name).lastExit;
    RecordTrade(t.state.value.day, Trade(name, "", if last == Some(ExitRef("a", "")) then "b" else "a", -1.0))
  }

  // ---- The mutable registry -------------------------------------------------------------------------

  class KillSwitchRegistry {
    const rearmOnNewDay: bool
    var switches: map<SwitchId, Record>
    var saved: map<SwitchId, Record>

    ghost function Model(): Registry
      reads this
    {
      Registry(switches, saved)
    }

    constructor (rearmOnNewDay: bool, saved: map<SwitchId, Record>)
      ensures Model() == Registry(saved, saved)
    {
      this.rearmOnNewDay, switches, this.saved := rearmOnNewDay, saved, saved;
    }

    method TripTo(id: SwitchId, target: Level, cause: Option<Cause>, today: int) returns (changed: bool)
      requires target != Armed
      modifies this
      ensures Model() == SwitchStep(old(Model()), rearmOnNewDay, TripSwitch(id, target, cause, today))
      ensures changed <==> old(Model()).At(id).level.Rank() < target.Rank()
      ensures Model().At(id) == if changed then Record(target, cause, Some(today)) else old(Model()).At(id)
      ensures forall other: SwitchId | other != id :: Model().At(other) == old(Model()).At(other)
    {
      var current := if id in switches then switches[id] else ARMED;
      if target.Rank() <= current.level.Rank() {
        return false;
      }
      SetSwitch(id, target, cause, today);
      return true;
    }

    method Resume(id: SwitchId, haltFile: bool, today: int) returns (resumed: bool)
      modifies this
      ensures Model() == SwitchStep(old(Model()), rearmOnNewDay, ResumeSwitch(id, haltFile, today))
      ensures resumed <==> Lowers(old(Model()), rearmOnNewDay, ResumeSwitch(id, haltFile, today), id)
    {
      var current := if id in switches then switches[id] else ARMED;
      if current.level == Armed || (id == Global && haltFile) {
        return false;
      }
      SetSwitch(id, Armed, None, today);
      return true;
    }

    method ApplyAll(breaches: seq<Breach>, today: int)
      modifies this
      ensures Model() == SwitchStep(old(Model()), rearmOnNewDay, ApplyBreaches(breaches, today))
    {
      assert breaches[0..] == breaches;
      for i := 0 to |breaches|
        invariant Apply(Model(), breaches[i..], today) == Apply(old(Model()), breaches, today)
      {
        var b := breaches[i];
        assert breaches[i..][0] == b && breaches[i..][1..] == breaches[i + 1..];
        var _ := TripTo(SwitchOf(b), Target(b), Some(Limit(b.code)), today);
      }
    }

    /** An operator's file on disk counts as a trip of Global. */
    method CheckHalt(present: bool, saysFlatten: bool, today: int) returns (changed: bool)
      modifies this
      ensures Model() == SwitchStep(old(Model()), rearmOnNewDay, CheckHaltFile(present, saysFlatten, today))
      ensures present ==> Model().At(Global).level != Armed
    {
      if !present {
        return false;
      }
      changed := TripTo(Global, if saysFlatten then Flattening else HaltingNew, Some(HaltFile), today);
    }

    method BeginDay(today: int)
      modifies this
      ensures Model() == SwitchStep(old(Model()), rearmOnNewDay, DayStarted(today))
    {
      if !rearmOnNewDay {
        return;
      }
      var todo := switches.Keys;
      ghost var done: set<SwitchId> := {};
      while todo != {}
        invariant switches.Keys == old(switches).Keys && todo + done == switches.Keys && todo !! done
        invariant forall id | id in todo :: switches[id] == old(switches)[id]
        invariant forall id | id in done :: switches[id] == AfterDay(id, old(switches)[id], today)
        invariant if exists id | id in done :: id != Broker && Rearms(old(switches)[id], today)
                  then saved == switches else saved == old(saved) && switches == old(switches)
        decreases todo
      {
        var id :| id in todo;
        if id != Broker && Rearms(switches[id], today) {
          SetSwitch(id, Armed, None, today);
        }
        todo, done := todo - {id}, done + {id};
      }
    }

    method SetSwitch(id: SwitchId, level: Level, cause: Option<Cause>, today: int)
      modifies this
      ensures Model() == Set(old(Model()), id, level, cause, today)
    {
      switches := switches[id := Record(level, cause, Some(today))];
      saved := switches;
    }
  }
}

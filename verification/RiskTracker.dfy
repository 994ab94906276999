/** The mutable DailyRiskTracker of src/risk/state.py; each method is proved to be its step. */
module RiskTracker {
  import opened Domain
  import opened RiskState

  class DailyRiskTracker {
    const limits: Limits
    var state: Option<DayState>
    var saved: Option<DayState>
    var rolled: seq<DayState>       // DailyRiskStateRolled events

    ghost function Model(): Tracker
      reads this
    {
      Tracker(state, saved, rolled)
    }

    /** A process start: the state is whatever was saved. */
    constructor (limits: Limits, saved: Option<DayState>, rolled: seq<DayState>)
      ensures Model() == Tracker(saved, saved, rolled)
      ensures this.limits == limits
    {
      this.limits, this.state, this.saved, this.rolled := limits, saved, saved, rolled;
    }

    method StartDay(today: int, sod: real) returns (ok: bool)
      modifies this
      ensures Model() == Step(limits, old(Model()), Start(today, sod))
      ensures ok <==> RiskState.StartDay(old(Model()), today, sod).Some?
      ensures ok ==> state.Some?
    {
      var peak, strategies := sod, map[];
      if state.Some? {
        var previous := state.value;
        if previous.day == today {
          return true;
        }
        if previous.day > today {
          return false;
        }
        rolled := rolled + [previous];
        if previous.peak > sod {
          peak := previous.peak;
        }
        strategies := map n | n in previous.strategies :: CarryOver(previous.strategies[n]);
      }
      SaveState(NewDay(today, sod, peak, strategies));
      return true;
    }

    /** _current: makes the state today's, from the hint if there is one, else from the last equity seen. */
    method EnsureToday(today: int, hint: Option<real>) returns (ok: bool)
      modifies this
      ensures
        var c := Current(old(Model()), today, hint);
        ok == c.Some? && Model() == (if c.Some? then c.value else old(Model())) && (ok ==> state.Some?)
    {
      if state.Some? && state.value.day == today {
        return true;
      }
      if hint.Some? {
        ok := StartDay(today, hint.value);
      } else if state.Some? {
        ok := StartDay(today, state.value.last);
      } else {
        ok := false;
      }
    }

    method RecordOrder(today: int, now: int, strategy: string, instrument: string, reduces: bool) returns (ok: bool)
      modifies this
      ensures Model() == Step(limits, old(Model()), Op.RecordOrder(today, now, strategy, instrument, reduces))
    {
      ok := EnsureToday(today, None);
      if ok {
        var s := state.value;
        var day := s.Strategy(strategy);
        s := s.(orderTs := Recent(s.orderTs, now, ORDER_RATE_WINDOW) + [now]);
        day := day.(orderTs := Recent(day.orderTs, now, ORDER_RATE_WINDOW) + [now]);
        if !reduces {
          s := s.(entries := s.entries + 1, entered := s.entered + {instrument});
          day := day.(entries := day.entries + 1);
        }
        SaveState(s.(strategies := s.strategies[strategy := day]));
      }
    }

    method RecordReject(today: int, now: int) returns (ok: bool)
      modifies this
      ensures Model() == Step(limits, old(Model()), Op.RecordReject(today, now))
    {
      ok := EnsureToday(today, None);
      if ok {
        SaveState(state.value.(rejectTs := Recent(state.value.rejectTs, now, limits.rejectStormWindow) + [now]));
      }
    }

    method RecordTrade(today: int, trade: Trade) returns (ok: bool)
      modifies this
      ensures Model() == Step(limits, old(Model()), Op.RecordTrade(today, trade))
    {
      ok := EnsureToday(today, None);
      if ok {
        var s := state.value;
        var day := s.Strategy(trade.strategy);
        day := day.(realized := day.realized + trade.net);
        var exit := Some(ExitRef(trade.exit, trade.instrument));
        if exit != day.lastExit {
          day := day.(lastExit := exit, trades := day.trades + 1);
          if trade.net < 0.0 {
            day := day.(losses := day.losses + 1);
          } else if trade.net > 0.0 {
            day := day.(losses := 0);
          }
        }
        SaveState(s.(realized := s.realized + trade.net, exited := s.exited + {trade.instrument},
                     strategies := s.strategies[trade.strategy := day]));
      }
    }

    method AcknowledgeStreak(strategy: string) returns (acknowledged: bool)
      modifies this
      ensures Model() == Step(limits, old(Model()), Acknowledge(strategy))
      ensures acknowledged <==> old(state).Some? && Acks(old(state).value, strategy)
    {
      if state.None? || strategy !in state.value.strategies || state.value.strategies[strategy].losses == 0 {
        return false;
      }
      SaveState(Acknowledged(state.value, strategy));
      return true;
    }

    method RiskTick(today: int, now: int, equity: real, unrealized: map<string, real>) returns (raised: set<Breach>)
      modifies this
      ensures Model() == Step(limits, old(Model()), Tick(today, now, equity, unrealized))
      ensures raised == Returned(limits, old(Model()), Tick(today, now, equity, unrealized))
    {
      hide Recent;
      var ok := EnsureToday(today, Some(equity));
      if !ok {
        return {};
      }
      var s := Marked(state.value, now, equity);
      var found := GlobalBreaches(limits, s, now);
      var todo := s.strategies.Keys + unrealized.Keys;
      ghost var model := Model();
      while todo != {}
        invariant Model() == model
        invariant todo <= s.strategies.Keys + unrealized.Keys
        invariant found == GlobalBreaches(limits, s, now)
          + set n, b | n in s.strategies.Keys + unrealized.Keys - todo
                       && b in StrategyBreaches(limits, s, n, Unrealized(unrealized, n)) :: b
        decreases todo
      {
        var name :| name in todo;
        found := found + StrategyBreaches(limits, s, name, Unrealized(unrealized, name));
        todo := todo - {name};
      }
      assert found == Found(limits, s, now, unrealized);
      raised := set b | b in found && b.Mark() !in s.breaches;
      assert raised == Raised(limits, s, now, unrealized);
      ghost var before := state.value;
      var marks := set b | b in raised :: b.Mark();
      SaveState(s.(breaches := s.breaches + marks));
      assert state.value == Ticked(limits, before, now, equity, unrealized);
    }

    method SaveState(s: DayState)
      modifies this`state, this`saved
      ensures state == saved == Some(s)
    {
      state, saved := Some(s), Some(s);
    }
  }
}

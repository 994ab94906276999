/** The session schedule of src/engine/lifecycle.py: two views of one day that must agree, and the loop that drives it. */
module Lifecycle {
  import opened Domain
  import opened Calendar

  datatype SessionState = PRE_OPEN | OPEN_STATE | ENTRY_WINDOW | MONITOR | CLOSE_STATE | REPORT | EXIT {
    function Rank(): nat {
      match this
      case PRE_OPEN => 0
      case OPEN_STATE => 1
      case ENTRY_WINDOW => 2
      case MONITOR => 3
      case CLOSE_STATE => 4
      case REPORT => 5
      case EXIT => 6
    }
  }

  datatype Config = Config(windowStart: int, windowEnd: int, reportAfterClose: int, exitAfterClose: int) {
    ghost predicate Valid() { windowStart < windowEnd && 0 <= reportAfterClose <= exitAfterClose }
  }

  datatype Window = Window(start: int, end: int)

  datatype Schedule = Schedule(open: int, close: int, window: Option<Window>, report: int, exit: int)

  /** build_schedule for a session: an entry window that does not fit the session is left out. */
  function Build(times: Times, config: Config): Schedule {
    var fits := times.open <= config.windowStart && config.windowEnd <= times.close;
    Schedule(times.open, times.close, if fits then Some(Window(config.windowStart, config.windowEnd)) else None,
             times.close + config.reportAfterClose, times.close + config.exitAfterClose)
  }

  function StateAt(s: Schedule, t: int): SessionState {
    if t < s.open then PRE_OPEN
    else if t < s.close then
      if s.window.None? then MONITOR
      else if t < s.window.value.start then OPEN_STATE
      else if t < s.window.value.end then ENTRY_WINDOW
      else MONITOR
    else if t < s.report then CLOSE_STATE
    else if t < s.exit then REPORT
    else EXIT
  }

  datatype Start = Start(state: SessionState, at: int)

  /** From the open to the close. */
  function Morning(s: Schedule): seq<Start> {
    if s.window.None? then [Start(MONITOR, s.open)]
    else
      (if s.open < s.window.value.start then [Start(OPEN_STATE, s.open)] else [])
      + [Start(ENTRY_WINDOW, s.window.value.start)]
      + (if s.window.value.end < s.close then [Start(MONITOR, s.window.value.end)] else [])
  }

  function Transitions(s: Schedule): seq<Start> {
    Morning(s) + [Start(CLOSE_STATE, s.close), Start(REPORT, s.report), Start(EXIT, s.exit)]
  }

  /** The last listed transition at or before t. */
  function LastListed(starts: seq<Start>, t: int): SessionState {
    if starts == [] then PRE_OPEN
    else if starts[|starts| - 1].at <= t then starts[|starts| - 1].state
    else LastListed(starts[..|starts| - 1], t)
  }

  // ---- Agreement ------------------------------------------------------------------------------------------

  lemma LastListedConcat(a: seq<Start>, x: Start, t: int)
    ensures LastListed(a + [x], t) == if x.at <= t then x.state else LastListed(a, t)
  {
    assert (a + [x])[..|a|] == a;
  }

  /** The end of every day's list. */
  lemma LastOfDay(head: seq<Start>, s: Schedule, t: int)
    ensures LastListed(head + [Start(CLOSE_STATE, s.close), Start(REPORT, s.report), Start(EXIT, s.exit)], t)
         == if s.exit <= t then EXIT else if s.report <= t then REPORT else if s.close <= t then CLOSE_STATE
            else LastListed(head, t)
  {
    var a, b := head + [Start(CLOSE_STATE, s.close)], head + [Start(CLOSE_STATE, s.close), Start(REPORT, s.report)];
    assert b == a + [Start(REPORT, s.report)];
    assert head + [Start(CLOSE_STATE, s.close), Start(REPORT, s.report), Start(EXIT, s.exit)] == b + [Start(EXIT, s.exit)];
    hide LastListed;
    LastListedConcat(b, Start(EXIT, s.exit), t);
    LastListedConcat(a, Start(REPORT, s.report), t);
    LastListedConcat(head, Start(CLOSE_STATE, s.close), t);
  }

  /**
   For every session and valid configuration, windows touching the open or the close and zero delays
   included, the state at t from the open onward is the last listed transition at or before t.
   */
  lemma ScheduleAgrees(times: Times, config: Config, t: int)
    requires times.open < times.close && config.Valid() && times.open <= t
    ensures StateAt(Build(times, config), t) == LastListed(Transitions(Build(times, config)), t)
  {
    var s := Build(times, config);
    LastOfDay(Morning(s), s, t);
    if t < s.close {
      MorningAgrees(s, t);
    }
  }

  lemma MorningAgrees(s: Schedule, t: int)
    requires s.open <= t < s.close && s.close <= s.report <= s.exit
    requires s.window.Some? ==> s.open <= s.window.value.start < s.window.value.end <= s.close
    ensures StateAt(s, t) == LastListed(Morning(s), t)
  {
    hide LastListed;
    if s.window.None? {
      LastListedConcat([], Start(MONITOR, s.open), t);
      assert [] + [Start(MONITOR, s.open)] == [Start(MONITOR, s.open)];
    } else {
      var w := s.window.value;
      var first := if s.open < w.start then [Start(OPEN_STATE, s.open)] else [];
      var second := first + [Start(ENTRY_WINDOW, w.start)];
      LastListedConcat([], Start(OPEN_STATE, s.open), t);
      assert [] + [Start(OPEN_STATE, s.open)] == [Start(OPEN_STATE, s.open)];
      LastListedConcat(first, Start(ENTRY_WINDOW, w.start), t);
      LastListedConcat(second, Start(MONITOR, w.end), t);
      assert second + [] == second;
    }
  }

  /**
   The day in the calendar's and the configuration's own times: entries exactly in the configured
   window, when it fits the session; a report from the configured delay after the close to the
   configured exit; and in between what is left.
   */
  lemma StatesAreScheduled(times: Times, config: Config, t: int)
    requires times.open < times.close && config.Valid()
    ensures
      var state := StateAt(Build(times, config), t);
      var fits := times.open <= config.windowStart && config.windowEnd <= times.close;
      && (state == PRE_OPEN <==> t < times.open)
      && (state == ENTRY_WINDOW <==> fits && config.windowStart <= t < config.windowEnd)
      && (state == OPEN_STATE <==> fits && times.open <= t < config.windowStart)
      && (state == MONITOR <==> times.open <= t < times.close && (!fits || config.windowEnd <= t))
      && (state == CLOSE_STATE <==> times.close <= t < times.close + config.reportAfterClose)
      && (state == REPORT <==> times.close + config.reportAfterClose <= t < times.close + config.exitAfterClose)
      && (state == EXIT <==> times.close + config.exitAfterClose <= t)
  {
  }

  /** Listed states only move on, and their times never go back. */
  lemma ListedInOrder(times: Times, config: Config)
    requires times.open < times.close && config.Valid()
    ensures
      var ts := Transitions(Build(times, config));
      forall i, j | 0 <= i < j < |ts| :: ts[i].state.Rank() < ts[j].state.Rank() && ts[i].at <= ts[j].at
  {
  }

  /** What lies ahead of t ranks above the last listed state. */
  lemma {:induction false} AheadRanksHigher(ts: seq<Start>, t: int, j: nat)
    requires forall i, k | 0 <= i < k < |ts| :: ts[i].state.Rank() < ts[k].state.Rank() && ts[i].at <= ts[k].at
    requires forall i | 0 <= i < |ts| :: 0 < ts[i].state.Rank()
    requires j < |ts| && t < ts[j].at
    ensures LastListed(ts, t).Rank() < ts[j].state.Rank()
  {
    LastListedIsListed(ts, t);
  }

  lemma {:induction false} LastListedIsListed(ts: seq<Start>, t: int)
    ensures LastListed(ts, t) == PRE_OPEN || exists i | 0 <= i < |ts| :: ts[i].state == LastListed(ts, t) && ts[i].at <= t
  {
    if ts != [] && t < ts[|ts| - 1].at {
      LastListedIsListed(ts[..|ts| - 1], t);
    }
  }

  // ---- Driving the day --------------------------------------------------------------------------------------

  /** States entered, with the instant of each. */
  datatype Entered = Entered(state: SessionState, at: int)

  /** How a day goes: how long each transition's hook takes, and by how much the sleep before it overshoots. */
  datatype Pace = Pace(hooks: seq<nat>, late: seq<nat>)

  ghost predicate Paced(pace: Pace, starts: seq<Start>) { |pace.hooks| == |pace.late| == |starts| }

  /** The clock when the loop comes to transition i, having come to the first at t0. */
  function Turn(starts: seq<Start>, pace: Pace, t0: int, i: nat): int
    requires i <= |starts| == |pace.hooks| == |pace.late|
  {
    if i == 0 then t0
    else
      var t := Turn(starts, pace, t0, i - 1);
      if t < starts[i - 1].at then starts[i - 1].at + pace.late[i - 1] + pace.hooks[i - 1] else t
  }

  /** What the loop enters among the first n transitions: those still ahead at their turn. */
  function Visits(starts: seq<Start>, pace: Pace, t0: int, n: nat): seq<Entered>
    requires n <= |starts| == |pace.hooks| == |pace.late|
  {
    if n == 0 then []
    else
      var x := starts[n - 1];
      Visits(starts, pace, t0, n - 1)
        + if Turn(starts, pace, t0, n - 1) < x.at then [Entered(x.state, x.at + pace.late[n - 1])] else []
  }

  /** A day: EXIT at once when it is over, else PRE_OPEN, the state a late start finds, and the loop, up to a stop. */
  function Day(s: Schedule, start: int, preOpen: nat, first: nat, pace: Pace, stopAt: nat): seq<Entered>
    requires |pace.hooks| == |pace.late| == |Transitions(s)|
  {
    if s.exit <= start then [Entered(EXIT, start)]
    else
      var now := start + preOpen;
      var current := StateAt(s, now);
      var found := if current != PRE_OPEN && 0 < stopAt then [Entered(current, now)] else [];
      [Entered(PRE_OPEN, start)] + found
        + Visits(Transitions(s), pace, if found == [] then now else now + first, Min(stopAt, |Transitions(s)|))
  }

  /**
   The run of one day. The process starts at `start`; `preOpen`, `first` and the pace's hooks are how
   long the callbacks take, and a stop is requested before transition number `stopAt`.
   */
  method Run(s: Schedule, start: int, preOpen: nat, first: nat, pace: Pace, stopAt: nat) returns (entered: seq<Entered>)
    requires Paced(pace, Transitions(s))
    ensures entered == Day(s, start, preOpen, first, pace, stopAt)
  {
    hide Transitions;
    var starts := Transitions(s);
    var now := start;
    if s.exit <= now {
      return [Entered(EXIT, now)];
    }
    entered := [Entered(PRE_OPEN, now)];
    now := now + preOpen;
    var current := StateAt(s, now);
    if current != PRE_OPEN && 0 < stopAt {
      entered := entered + [Entered(current, now)];   // nothing earlier is entered any more
      now := now + first;
    }
    ghost var before, t0 := entered, now;
    for i := 0 to |starts|
      invariant entered == before + Visits(starts, pace, t0, Min(stopAt, i))
      invariant i <= stopAt ==> now == Turn(starts, pace, t0, i)
      invariant stopAt < i ==> forall k | stopAt <= k < i :: starts[k].at <= now
    {
      if now < starts[i].at {
        if stopAt <= i {
          return;
        }
        now := starts[i].at + pace.late[i];   // sleep_until
        entered := entered + [Entered(starts[i].state, now)];
        now := now + pace.hooks[i];
      }
    }
  }

  // ---- What a day enters ------------------------------------------------------------------------------------

  /** Transitions whose ranks rise and whose times never go back. */
  ghost predicate Ordered(starts: seq<Start>) {
    && (forall i, j | 0 <= i < j < |starts| :: starts[i].state.Rank() < starts[j].state.Rank() && starts[i].at <= starts[j].at)
    && (forall i | 0 <= i < |starts| :: 0 < starts[i].state.Rank())
  }

  /** One after the other, never back, so each state at most once. */
  ghost predicate InOrder(entered: seq<Entered>) {
    forall i, j | 0 <= i < j < |entered| :: entered[i].state.Rank() < entered[j].state.Rank()
  }

  /** The clock never goes back between turns. */
  lemma {:induction false} TurnsGoOn(starts: seq<Start>, pace: Pace, t0: int, i: nat, j: nat)
    requires i <= j <= |starts| && Paced(pace, starts)
    ensures Turn(starts, pace, t0, i) <= Turn(starts, pace, t0, j)
  {
    if i < j {
      TurnsGoOn(starts, pace, t0, i, j - 1);
    }
  }

  /** A transition is entered, once it is on time plus the overshoot, if and only if it is still ahead at its turn. */
  lemma {:induction false} VisitedExactly(starts: seq<Start>, pace: Pace, t0: int, n: nat, k: nat)
    requires k < n <= |starts| && Paced(pace, starts) && Ordered(starts)
    ensures Entered(starts[k].state, starts[k].at + pace.late[k]) in Visits(starts, pace, t0, n) <==> Turn(starts, pace, t0, k) < starts[k].at
    ensures Enters(Visits(starts, pace, t0, n), starts[k].state) <==> Turn(starts, pace, t0, k) < starts[k].at
  {
    VisitsAreListed(starts, pace, t0, n);
    VisitsHold(starts, pace, t0, n, k);
    var visits := Visits(starts, pace, t0, n);
    forall e | e in visits && e.state == starts[k].state ensures Turn(starts, pace, t0, k) < starts[k].at {
      var i :| 0 <= i < n && Turn(starts, pace, t0, i) < starts[i].at && e == Entered(starts[i].state, starts[i].at + pace.late[i]);
      assert i == k;
    }
  }

  lemma {:induction false} VisitsHold(starts: seq<Start>, pace: Pace, t0: int, n: nat, k: nat)
    requires k < n <= |starts| && Paced(pace, starts)
    ensures Turn(starts, pace, t0, k) < starts[k].at ==>
      Entered(starts[k].state, starts[k].at + pace.late[k]) in Visits(starts, pace, t0, n)
  {
    if k < n - 1 {
      VisitsHold(starts, pace, t0, n - 1, k);
    }
  }

  lemma {:induction false} VisitsAreListed(starts: seq<Start>, pace: Pace, t0: int, n: nat)
    requires n <= |starts| && Paced(pace, starts)
    ensures forall e | e in Visits(starts, pace, t0, n) ::
      exists i | 0 <= i < n :: Turn(starts, pace, t0, i) < starts[i].at && e == Entered(starts[i].state, starts[i].at + pace.late[i])
  {
    if n != 0 {
      VisitsAreListed(starts, pace, t0, n - 1);
    }
  }

  lemma {:induction false} VisitsInOrder(starts: seq<Start>, pace: Pace, t0: int, n: nat)
    requires n <= |starts| && Paced(pace, starts) && Ordered(starts)
    ensures InOrder(Visits(starts, pace, t0, n))
  {
    if n != 0 {
      VisitsInOrder(starts, pace, t0, n - 1);
      VisitsAreListed(starts, pace, t0, n - 1);
      var before := Visits(starts, pace, t0, n - 1);
      forall e | e in before ensures e.state.Rank() < starts[n - 1].state.Rank() {
        var i :| 0 <= i < n - 1 && e == Entered(starts[i].state, starts[i].at + pace.late[i]);
      }
    }
  }

  lemma TransitionsOrdered(times: Times, config: Config)
    requires times.open < times.close && config.Valid()
    ensures Ordered(Transitions(Build(times, config)))
  {
    ListedInOrder(times, config);
  }

  /** The state a late start finds ranks below whatever is still ahead. */
  lemma FoundRanksBelow(times: Times, config: Config, now: int, k: nat)
    requires times.open < times.close && config.Valid()
    requires k < |Transitions(Build(times, config))| && now < Transitions(Build(times, config))[k].at
    ensures StateAt(Build(times, config), now).Rank() < Transitions(Build(times, config))[k].state.Rank()
  {
    TransitionsOrdered(times, config);
    if times.open <= now {
      ScheduleAgrees(times, config, now);
      AheadRanksHigher(Transitions(Build(times, config)), now, k);
    }
  }

  /** What comes before the loop: PRE_OPEN, and on a late start the state it finds. */
  function Opening(s: Schedule, start: int, preOpen: nat, stopAt: nat): seq<Entered> {
    var current := StateAt(s, start + preOpen);
    [Entered(PRE_OPEN, start)] + if current != PRE_OPEN && 0 < stopAt then [Entered(current, start + preOpen)] else []
  }

  function LoopStart(s: Schedule, start: int, preOpen: nat, first: nat, stopAt: nat): int {
    if StateAt(s, start + preOpen) != PRE_OPEN && 0 < stopAt then start + preOpen + first else start + preOpen
  }

  lemma DayIs(s: Schedule, start: int, preOpen: nat, first: nat, pace: Pace, stopAt: nat)
    requires Paced(pace, Transitions(s)) && start < s.exit
    ensures Day(s, start, preOpen, first, pace, stopAt) ==
      Opening(s, start, preOpen, stopAt)
        + Visits(Transitions(s), pace, LoopStart(s, start, preOpen, first, stopAt), Min(stopAt, |Transitions(s)|))
  {
    hide Transitions, StateAt, Visits;
  }

  /** Every entry of a run is at its time: the schedule's state then, or a transition not before it is due. */
  ghost predicate OnTime(e: Entered, s: Schedule) {
    || e.state == StateAt(s, e.at)
    || exists k | 0 <= k < |Transitions(s)| :: e.state == Transitions(s)[k].state && Transitions(s)[k].at <= e.at
  }

  /** What the loop enters follows the opening, in rank and in time. */
  lemma LoopFollows(times: Times, config: Config, start: int, preOpen: nat, first: nat, pace: Pace, stopAt: nat, e: Entered)
    requires times.open < times.close && config.Valid() && Paced(pace, Transitions(Build(times, config)))
    requires
      var s := Build(times, config);
      e in Visits(Transitions(s), pace, LoopStart(s, start, preOpen, first, stopAt), Min(stopAt, |Transitions(s)|))
    ensures
      var s := Build(times, config);
      StateAt(s, start + preOpen).Rank() < e.state.Rank() && 0 < e.state.Rank() && start <= e.at && OnTime(e, s)
  {
    hide Build, Transitions, StateAt, Visits;
    var s := Build(times, config);
    var starts, t0, n := Transitions(s), LoopStart(s, start, preOpen, first, stopAt), Min(stopAt, |Transitions(s)|);
    TransitionsOrdered(times, config);
    VisitsAreListed(starts, pace, t0, n);
    var k :| 0 <= k < n && Turn(starts, pace, t0, k) < starts[k].at && e == Entered(starts[k].state, starts[k].at + pace.late[k]);
    TurnsGoOn(starts, pace, t0, 0, k);
    FoundRanksBelow(times, config, start + preOpen, k);
  }

  lemma ConcatInOrder(a: seq<Entered>, b: seq<Entered>)
    requires InOrder(a) && InOrder(b) && forall x, y | x in a && y in b :: x.state.Rank() < y.state.Rank()
    ensures InOrder(a + b)
  {
  }

  /**
   However late a run starts and however long its hooks take: states are entered in order, each,
   ENTRY_WINDOW among them, at most once, and none before the run starts or before its time.
   */
  lemma DayInOrder(times: Times, config: Config, start: int, preOpen: nat, first: nat, pace: Pace, stopAt: nat)
    requires times.open < times.close && config.Valid() && Paced(pace, Transitions(Build(times, config)))
    ensures
      var s := Build(times, config);
      var day := Day(s, start, preOpen, first, pace, stopAt);
      && day != [] && InOrder(day)
      && (forall e | e in day :: start <= e.at)
      && (forall i | 0 < i < |day| :: OnTime(day[i], s))
  {
    var s := Build(times, config);
    var t0, n := LoopStart(s, start, preOpen, first, stopAt), Min(stopAt, |Transitions(s)|);
    if start < s.exit {
      var opening, visits := Opening(s, start, preOpen, stopAt), Visits(Transitions(s), pace, t0, n);
      DayIs(s, start, preOpen, first, pace, stopAt);
      TransitionsOrdered(times, config);
      VisitsInOrder(Transitions(s), pace, t0, n);
      forall e | e in visits
        ensures StateAt(s, start + preOpen).Rank() < e.state.Rank() && 0 < e.state.Rank() && start <= e.at && OnTime(e, s)
      {
        LoopFollows(times, config, start, preOpen, first, pace, stopAt, e);
      }
      OpeningInOrder(s, start, preOpen, stopAt);
      hide Day, Visits, Transitions, Build, StateAt, OnTime, Opening;
      ConcatInOrder(opening, visits);
    }
  }

  lemma OpeningInOrder(s: Schedule, start: int, preOpen: nat, stopAt: nat)
    ensures
      var opening, found := Opening(s, start, preOpen, stopAt), StateAt(s, start + preOpen);
      && InOrder(opening) && 1 <= |opening| <= 2
      && (forall e | e in opening :: start <= e.at && (e.state.Rank() == 0 || e.state == found))
      && (forall i | 0 < i < |opening| :: OnTime(opening[i], s))
  {
    hide StateAt, Transitions;
  }

  /**
   Without a stop, which transitions are missed: one is entered if and only if the clock has not
   reached its time when the hooks before it are done, or it is the state a late start finds.
   */
  lemma EnteredExactly(times: Times, config: Config, start: int, preOpen: nat, first: nat, pace: Pace, k: nat)
    requires times.open < times.close && config.Valid() && Paced(pace, Transitions(Build(times, config)))
    requires k < |Transitions(Build(times, config))| && start < Build(times, config).exit
    ensures
      var s := Build(times, config);
      var starts := Transitions(s);
      Enters(Day(s, start, preOpen, first, pace, |starts|), starts[k].state) <==>
        || Turn(starts, pace, LoopStart(s, start, preOpen, first, |starts|), k) < starts[k].at
        || StateAt(s, start + preOpen) == starts[k].state
  {
    var s := Build(times, config);
    var starts, t0 := Transitions(s), LoopStart(s, start, preOpen, first, |Transitions(s)|);
    TransitionsOrdered(times, config);
    VisitedExactly(starts, pace, t0, |starts|, k);
    DayIs(s, start, preOpen, first, pace, |starts|);
    OpeningEnters(s, start, preOpen, |starts|, starts[k].state);
    hide Build, StateAt, Visits, Day, Transitions, Opening;
    EntersConcat(Opening(s, start, preOpen, |starts|), Visits(starts, pace, t0, |starts|), starts[k].state);
  }

  ghost predicate Enters(entered: seq<Entered>, state: SessionState) { exists e :: e in entered && e.state == state }

  lemma EntersConcat(a: seq<Entered>, b: seq<Entered>, state: SessionState)
    ensures Enters(a + b, state) <==> Enters(a, state) || Enters(b, state)
  {
    if Enters(a, state) {
      var e :| e in a && e.state == state;
      assert e in a + b;
    }
    if Enters(b, state) {
      var e :| e in b && e.state == state;
      assert e in a + b;
    }
  }

  lemma OpeningEnters(s: Schedule, start: int, preOpen: nat, stopAt: nat, state: SessionState)
    requires 0 < state.Rank() && 0 < stopAt
    ensures Enters(Opening(s, start, preOpen, stopAt), state) <==> StateAt(s, start + preOpen) == state
  {
    hide StateAt;
    if StateAt(s, start + preOpen) == state {
      assert Entered(state, start + preOpen) in Opening(s, start, preOpen, stopAt);
    }
  }

  /**
   So a transition listed at the same time as one that is entered is never entered itself: with no
   delay after the close there is no REPORT, and with none after the report no EXIT.
   */
  lemma SameTimeSkipped(times: Times, config: Config, start: int, preOpen: nat, first: nat, pace: Pace, k: nat)
    requires times.open < times.close && config.Valid() && Paced(pace, Transitions(Build(times, config)))
    requires 0 < k < |Transitions(Build(times, config))| && start + preOpen < Transitions(Build(times, config))[k].at
    requires Transitions(Build(times, config))[k - 1].at == Transitions(Build(times, config))[k].at
    ensures var s := Build(times, config); !Enters(Day(s, start, preOpen, first, pace, |Transitions(s)|), Transitions(s)[k].state)
  {
    var s := Build(times, config);
    var starts, t0 := Transitions(s), LoopStart(s, start, preOpen, first, |Transitions(s)|);
    assert start < s.exit by { TransitionsEnd(s, k); ListedInOrder(times, config); }
    FoundRanksBelow(times, config, start + preOpen, k);
    EnteredExactly(times, config, start, preOpen, first, pace, k);
    assert starts[k - 1].at <= Turn(starts, pace, t0, k);
  }

  /** And a hook that outlasts everything ahead ends the day early: nothing after it is entered, EXIT included. */
  lemma LongHookSkipsTheRest(times: Times, config: Config, start: int, preOpen: nat, first: nat, pace: Pace, j: nat, k: nat)
    requires times.open < times.close && config.Valid() && Paced(pace, Transitions(Build(times, config)))
    requires j < k < |Transitions(Build(times, config))| && start + preOpen < Transitions(Build(times, config))[j].at
    requires
      var starts := Transitions(Build(times, config));
      && Turn(starts, pace, LoopStart(Build(times, config), start, preOpen, first, |starts|), j) < starts[j].at
      && starts[k].at <= starts[j].at + pace.late[j] + pace.hooks[j]
    ensures !Enters(Day(Build(times, config), start, preOpen, first, pace, |Transitions(Build(times, config))|),
                    Transitions(Build(times, config))[k].state)
  {
    var s := Build(times, config);
    var starts, t0 := Transitions(s), LoopStart(s, start, preOpen, first, |Transitions(s)|);
    ListedInOrder(times, config);
    TransitionsEnd(s, k);
    hide Transitions, Build, StateAt, Day;
    FoundRanksBelow(times, config, start + preOpen, k);
    EnteredExactly(times, config, start, preOpen, first, pace, k);
    TurnsGoOn(starts, pace, t0, j + 1, k);
  }

  lemma TransitionsEnd(s: Schedule, k: nat)
    requires k < |Transitions(s)|
    ensures Transitions(s)[|Transitions(s)| - 1] == Start(EXIT, s.exit)
  {
  }
}

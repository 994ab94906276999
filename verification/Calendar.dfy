/**
 The trading calendar of src/domain/calendar.py and the session arithmetic of src/risk/events.py.
 A date is a day number, with Monday congruent to 0 modulo 7.
 */
module Calendar {
  import opened Domain

  const MAX_SCAN_DAYS: nat := 31

  datatype Times = Times(preOpen: int, open: int, close: int)

  datatype Calendar = Calendar(
    covers: int -> bool,                       // the day's year is in the file
    holidays: set<int>,
    specials: map<int, Option<Times>>,         // None: announced, times not notified
    default: Times)

  function Weekday(day: int): int { day % 7 }

  /** What asking for a day's session gives. */
  datatype Answer = Uncovered | NoSession | Trades(times: Times)

  function Session(cal: Calendar, day: int): Answer {
    if !cal.covers(day) then Uncovered
    else if day in cal.specials then (if cal.specials[day].None? then NoSession else Trades(cal.specials[day].value))
    else if 5 <= Weekday(day) || day in cal.holidays then NoSession
    else Trades(cal.default)
  }

  predicate IsTrading(cal: Calendar, day: int) { Session(cal, day).Trades? }

  /** Covered, and closed. */
  predicate IsClosed(cal: Calendar, day: int) { Session(cal, day).NoSession? }

  /** A special session comes before everything; else weekdays that are no holiday trade, at the usual times. */
  lemma SessionExactly(cal: Calendar, day: int)
    ensures Session(cal, day) == Uncovered <==> !cal.covers(day)
    ensures cal.covers(day) && day in cal.specials ==>
      (IsTrading(cal, day) <==> cal.specials[day].Some?)
      && (IsTrading(cal, day) ==> Session(cal, day).times == cal.specials[day].value)
    ensures cal.covers(day) && day !in cal.specials ==>
      (IsTrading(cal, day) <==> Weekday(day) != 5 && Weekday(day) != 6 && day !in cal.holidays)
      && (IsTrading(cal, day) ==> Session(cal, day).times == cal.default)
    ensures IsClosed(cal, day) <==> cal.covers(day) && !IsTrading(cal, day)
  {
  }

  // ---- Scanning -----------------------------------------------------------------------------------------

  /** _scan, with n candidates left; None is a coverage error. */
  function ScanOn(cal: Calendar, day: int, step: int, n: nat): Option<int>
    decreases n
  {
    if n == 0 || Session(cal, day + step).Uncovered? then None
    else if IsTrading(cal, day + step) then Some(day + step)
    else ScanOn(cal, day + step, step, n - 1)
  }

  method Scan(cal: Calendar, day: int, step: int) returns (found: Option<int>)
    ensures found == ScanOn(cal, day, step, MAX_SCAN_DAYS)
  {
    var candidate := day;
    for i := 0 to MAX_SCAN_DAYS
      invariant ScanOn(cal, candidate, step, MAX_SCAN_DAYS - i) == ScanOn(cal, day, step, MAX_SCAN_DAYS)
    {
      candidate := candidate + step;
      match Session(cal, candidate) {
        case Uncovered => return None;
        case Trades(_) => return Some(candidate);
        case NoSession =>
      }
    }
    return None;
  }

  function NextDay(cal: Calendar, day: int): Option<int> { ScanOn(cal, day, 1, MAX_SCAN_DAYS) }

  function PreviousDay(cal: Calendar, day: int): Option<int> { ScanOn(cal, day, -1, MAX_SCAN_DAYS) }

  /** Neighbouring trading days: nothing but closed, covered days between them, and not too many. */
  ghost predicate Adjacent(cal: Calendar, a: int, b: int, limit: nat) {
    && a < b <= a + limit
    && (forall d | a < d < b :: IsClosed(cal, d))
  }

  lemma {:induction false} NextIsAdjacent(cal: Calendar, day: int, n: nat, found: int)
    ensures ScanOn(cal, day, 1, n) == Some(found) <==> Adjacent(cal, day, found, n) && IsTrading(cal, found)
    decreases n
  {
    if n != 0 && IsClosed(cal, day + 1) {
      NextIsAdjacent(cal, day + 1, n - 1, found);
      if Adjacent(cal, day, found, n) && IsTrading(cal, found) {
        assert forall d | day + 1 < d < found :: IsClosed(cal, d);
      }
    }
  }

  lemma {:induction false} PreviousIsAdjacent(cal: Calendar, day: int, n: nat, found: int)
    ensures ScanOn(cal, day, -1, n) == Some(found) <==> Adjacent(cal, found, day, n) && IsTrading(cal, found)
    decreases n
  {
    if n != 0 && IsClosed(cal, day - 1) {
      PreviousIsAdjacent(cal, day - 1, n - 1, found);
      if Adjacent(cal, found, day, n) && IsTrading(cal, found) {
        assert forall d | found < d < day - 1 :: IsClosed(cal, d);
      }
    }
  }

  /** Between trading days, next and previous undo each other. */
  lemma StepsInvert(cal: Calendar, a: int, b: int)
    requires IsTrading(cal, a) && IsTrading(cal, b)
    ensures NextDay(cal, a) == Some(b) <==> PreviousDay(cal, b) == Some(a)
  {
    NextIsAdjacent(cal, a, MAX_SCAN_DAYS, b);
    PreviousIsAdjacent(cal, b, MAX_SCAN_DAYS, a);
  }

  // ---- Shifting by sessions -----------------------------------------------------------------------------

  function StepOf(forward: bool): int { if forward then 1 else -1 }

  /** Weekend days still ahead, going this way. */
  function WeekendLeft(day: int, step: int): nat {
    if Weekday(day) < 5 then 0 else if step == 1 then 7 - Weekday(day) else Weekday(day) - 4
  }

  /** The stand-in outside coverage: past any weekend. */
  function SkipWeekend(day: int, step: int): int
    requires step == 1 || step == -1
    decreases WeekendLeft(day, step)
  {
    if Weekday(day) < 5 then day else SkipWeekend(day + step, step)
  }

  function ShiftOne(cal: Calendar, day: int, forward: bool): int {
    var found := if forward then NextDay(cal, day) else PreviousDay(cal, day);
    if found.Some? then found.value else SkipWeekend(day + StepOf(forward), StepOf(forward))
  }

  /** n shifts one way. */
  function ShiftMany(cal: Calendar, day: int, n: nat, forward: bool): int {
    if n == 0 then day else ShiftOne(cal, ShiftMany(cal, day, n - 1, forward), forward)
  }

  function ShiftSessions(cal: Calendar, day: int, sessions: int): int {
    ShiftMany(cal, day, Abs(sessions), 0 < sessions)
  }

  method Shift(cal: Calendar, day: int, sessions: int) returns (current: int)
    ensures current == ShiftSessions(cal, day, sessions)
  {
    hide ScanOn, SkipWeekend;
    current := day;
    var step := if 0 < sessions then 1 else -1;
    for i := 0 to Abs(sessions)
      invariant current == ShiftMany(cal, day, i, 0 < sessions)
    {
      var found := Scan(cal, current, step);
      if found.Some? {
        current := found.value;
      } else {
        current := PastWeekend(current + step, step);
      }
    }
  }

  method PastWeekend(day: int, step: int) returns (current: int)
    requires step == 1 || step == -1
    ensures current == SkipWeekend(day, step)
  {
    current := day;
    while 5 <= Weekday(current)
      invariant SkipWeekend(current, step) == SkipWeekend(day, step)
      decreases WeekendLeft(current, step)
    {
      current := current + step;
    }
  }

  /** The first n shifts all find their session inside the calendar. */
  predicate InCoverage(cal: Calendar, day: int, n: nat, forward: bool) {
    n == 0 ||
    (InCoverage(cal, day, n - 1, forward) &&
     var at := ShiftMany(cal, day, n - 1, forward);
     if forward then NextDay(cal, at).Some? else PreviousDay(cal, at).Some?)
  }

  lemma {:induction false} StaysTrading(cal: Calendar, day: int, n: nat, forward: bool)
    requires IsTrading(cal, day) && InCoverage(cal, day, n, forward)
    ensures IsTrading(cal, ShiftMany(cal, day, n, forward))
  {
    if n != 0 {
      StaysTrading(cal, day, n - 1, forward);
      ShiftOneIs(cal, ShiftMany(cal, day, n - 1, forward), forward);
    }
  }

  /** A shift that finds its session lands on a neighbour, and the opposite shift returns. */
  lemma ShiftOneIs(cal: Calendar, day: int, forward: bool)
    requires IsTrading(cal, day) && if forward then NextDay(cal, day).Some? else PreviousDay(cal, day).Some?
    ensures IsTrading(cal, ShiftOne(cal, day, forward))
    ensures ShiftOne(cal, ShiftOne(cal, day, forward), !forward) == day
    ensures forward ==> Adjacent(cal, day, ShiftOne(cal, day, forward), MAX_SCAN_DAYS)
  {
    var to := ShiftOne(cal, day, forward);
    NextIsAdjacent(cal, day, MAX_SCAN_DAYS, to);
    PreviousIsAdjacent(cal, day, MAX_SCAN_DAYS, to);
    if forward { StepsInvert(cal, day, to); } else { StepsInvert(cal, to, day); }
  }

  /** The other way round: the first step can be taken first. */
  lemma {:induction false} ShiftFirst(cal: Calendar, day: int, n: nat, forward: bool)
    ensures ShiftMany(cal, day, n + 1, forward) == ShiftMany(cal, ShiftOne(cal, day, forward), n, forward)
  {
    hide ShiftOne;
    if n != 0 {
      ShiftFirst(cal, day, n - 1, forward);
    }
  }

  lemma {:induction false} ShiftReturns(cal: Calendar, day: int, n: nat, forward: bool)
    requires IsTrading(cal, day) && InCoverage(cal, day, n, forward)
    ensures ShiftMany(cal, ShiftMany(cal, day, n, forward), n, !forward) == day
  {
    if n != 0 {
      var at := ShiftMany(cal, day, n - 1, forward);
      var end := ShiftMany(cal, day, n, forward);
      StaysTrading(cal, day, n - 1, forward);
      ShiftOneIs(cal, at, forward);
      ShiftReturns(cal, day, n - 1, forward);
      ShiftFirst(cal, end, n - 1, !forward);
    }
  }

  /** From a trading day, shifting k sessions and back k, either way, returns to it, for every k within coverage. */
  lemma ShiftRoundTrip(cal: Calendar, day: int, k: int)
    requires IsTrading(cal, day) && InCoverage(cal, day, Abs(k), 0 < k)
    ensures ShiftSessions(cal, ShiftSessions(cal, day, k), -k) == day
  {
    ShiftReturns(cal, day, Abs(k), 0 < k);
    if k == 0 {
      assert ShiftSessions(cal, day, k) == day;
    }
  }

  // ---- Where coverage ends --------------------------------------------------------------------------------

  /** The week goes round. */
  lemma WeekGoesRound(day: int)
    ensures 0 <= Weekday(day) <= 6
    ensures Weekday(day + 1) == (if Weekday(day) == 6 then 0 else Weekday(day) + 1)
    ensures Weekday(day - 1) == (if Weekday(day) == 0 then 6 else Weekday(day) - 1)
  {
  }

  /** The stand-in forward: past a weekend to its Monday. */
  lemma SkipForward(day: int)
    ensures SkipWeekend(day, 1) == if Weekday(day) == 5 then day + 2 else if Weekday(day) == 6 then day + 1 else day
    ensures Weekday(SkipWeekend(day, 1)) < 5
  {
    WeekGoesRound(day);
    WeekGoesRound(day + 1);
    hide Weekday;
    if Weekday(day) == 5 {
      assert SkipWeekend(day + 1, 1) == SkipWeekend(day + 2, 1) == day + 2;
    } else if Weekday(day) == 6 {
      assert SkipWeekend(day + 1, 1) == day + 1;
    }
  }

  /** And backward: to its Friday. */
  lemma SkipBackward(day: int)
    ensures SkipWeekend(day, -1) == if Weekday(day) == 6 then day - 2 else if Weekday(day) == 5 then day - 1 else day
    ensures Weekday(SkipWeekend(day, -1)) < 5
  {
    WeekGoesRound(day);
    WeekGoesRound(day - 1);
    hide Weekday;
    if Weekday(day) == 6 {
      assert SkipWeekend(day - 1, -1) == SkipWeekend(day - 2, -1) == day - 2;
    } else if Weekday(day) == 5 {
      assert SkipWeekend(day - 1, -1) == day - 1;
    }
  }

  /** The stand-in: the next weekday that way, at most the two weekend days further. */
  lemma SkipWeekendIs(day: int, step: int)
    requires step == 1 || step == -1
    ensures
      var to := SkipWeekend(day, step);
      && Weekday(to) < 5 && (Weekday(day) < 5 ==> to == day)
      && (step == 1 ==> to == if Weekday(day) == 5 then day + 2 else if Weekday(day) == 6 then day + 1 else day)
      && (step == -1 ==> to == if Weekday(day) == 6 then day - 2 else if Weekday(day) == 5 then day - 1 else day)
  {
    hide SkipWeekend, Weekday;
    SkipForward(day);
    SkipBackward(day);
  }

  /** Scanning finds the neighbouring day if it trades, and gives up at once if it is not covered. */
  lemma ScanNear(cal: Calendar, day: int, step: int)
    ensures IsTrading(cal, day + step) ==> ScanOn(cal, day, step, MAX_SCAN_DAYS) == Some(day + step)
    ensures !cal.covers(day + step) ==> ScanOn(cal, day, step, MAX_SCAN_DAYS) == None
    ensures IsClosed(cal, day + step) && IsTrading(cal, day + step + step)
      ==> ScanOn(cal, day, step, MAX_SCAN_DAYS) == Some(day + step + step)
    ensures IsClosed(cal, day + step) && !cal.covers(day + step + step) ==> ScanOn(cal, day, step, MAX_SCAN_DAYS) == None
    ensures IsClosed(cal, day + step) && IsClosed(cal, day + step + step) && IsTrading(cal, day + step + step + step)
      ==> ScanOn(cal, day, step, MAX_SCAN_DAYS) == Some(day + step + step + step)
  {
    assert ScanOn(cal, day, step, 31) ==
      if !cal.covers(day + step) then None else if IsTrading(cal, day + step) then Some(day + step)
      else ScanOn(cal, day + step, step, 30);
    assert ScanOn(cal, day + step, step, 30) ==
      if !cal.covers(day + step + step) then None else if IsTrading(cal, day + step + step) then Some(day + step + step)
      else ScanOn(cal, day + step + step, step, 29);
  }

  /** Whether the scan that way finds a session. */
  predicate Finds(cal: Calendar, day: int, forward: bool) {
    if forward then NextDay(cal, day).Some? else PreviousDay(cal, day).Some?
  }

  /**
   One session there and one back, from any trading day, coverage or not: it returns if and only if
   the scan finds a session, or the day next to the stand-in, towards the start, is the start; or,
   starting on a weekday, that day is not a session, or, on a special weekend day, is covered.
   */
  lemma ShiftBackExactly(cal: Calendar, day: int, forward: bool)
    requires IsTrading(cal, day)
    ensures
      var near := SkipWeekend(day + StepOf(forward), StepOf(forward)) - StepOf(forward);
      (ShiftOne(cal, ShiftOne(cal, day, forward), !forward) == day) <==>
      (Finds(cal, day, forward) || near == day || (if Weekday(day) < 5 then !IsTrading(cal, near) else cal.covers(near)))
  {
    var step := StepOf(forward);
    if Finds(cal, day, forward) {
      ShiftOneIs(cal, day, forward);
    } else {
      var to := ShiftOne(cal, day, forward);
      var near := to - step;
      hide ScanOn, SkipWeekend, Weekday;
      WeekGoesRound(day);
      WeekGoesRound(day + step);
      SkipWeekendIs(day + step, step);
      SkipWeekendIs(near, -step);
      ScanNear(cal, day, step);
      ScanNear(cal, to, -step);
      assert !IsTrading(cal, day + step);
      if near != day {
        StandInIsFar(day, step);
      }
    }
  }

  /** A stand-in past a weekend is three days from a Friday or Monday, two from the weekend day next to it. */
  lemma StandInIsFar(day: int, step: int)
    requires step == 1 || step == -1
    requires SkipWeekend(day + step, step) - step != day
    ensures SkipWeekend(day + step, step) == day + if Weekday(day) < 5 then step + step + step else step + step
    ensures SkipWeekend(SkipWeekend(day + step, step) - step, -step) == if Weekday(day) < 5 then day else day - step
  {
    hide SkipWeekend, Weekday;
    WeekGoesRound(day);
    WeekGoesRound(day + step);
    WeekGoesRound(day + step + step);
    SkipWeekendIs(day + step, step);
    SkipWeekendIs(SkipWeekend(day + step, step) - step, -step);
  }

  // Past the last session, for any number of shifts.

  /** How far one day lies past another, going this way. */
  function Dist(from: int, to: int, step: int): int { if step == 1 then to - from else from - to }

  /** Going this way, `last` is the last session: closed days up to `edge`, and nothing covered past it. */
  ghost predicate LastBefore(cal: Calendar, last: int, edge: int, step: int) {
    && IsTrading(cal, last) && 0 <= Dist(last, edge, step)
    && (forall d | 0 < Dist(last, d, step) && 0 <= Dist(d, edge, step) :: IsClosed(cal, d))
    && (forall d | 0 < Dist(edge, d, step) :: !cal.covers(d))
  }

  /** The j-th weekday from a day on. */
  function NthWeekday(day: int, step: int, j: nat): int
    requires step == 1 || step == -1
  {
    if j == 0 then day else SkipWeekend(NthWeekday(day, step, j - 1) + step, step)
  }

  lemma Further(day: int, step: int, j: nat)
    requires step == 1 || step == -1
    ensures 0 < Dist(NthWeekday(day, step, j), NthWeekday(day, step, j + 1), step) <= 3
    ensures Weekday(NthWeekday(day, step, j + 1)) < 5
  {
    SkipWeekendIs(NthWeekday(day, step, j) + step, step);
    hide SkipWeekend, Weekday;
  }

  lemma {:induction false} FurtherStill(day: int, step: int, i: nat, j: nat)
    requires (step == 1 || step == -1) && i <= j
    ensures 0 <= Dist(NthWeekday(day, step, i), NthWeekday(day, step, j), step)
  {
    if i < j {
      FurtherStill(day, step, i, j - 1);
      Further(day, step, j - 1);
    }
  }

  /** One weekday on and one back is where it started, from a weekday. */
  lemma WeekdayBack(day: int, step: int)
    requires (step == 1 || step == -1) && Weekday(day) < 5
    ensures SkipWeekend(SkipWeekend(day + step, step) - step, -step) == day
  {
    hide SkipWeekend, Weekday;
    WeekGoesRound(day);
    WeekGoesRound(day + step);
    WeekGoesRound(day + step + step);
    SkipWeekendIs(day + step, step);
    SkipWeekendIs(SkipWeekend(day + step, step) - step, -step);
  }

  lemma {:induction false} NothingBeyond(cal: Calendar, last: int, edge: int, step: int, day: int, n: nat)
    requires (step == 1 || step == -1) && LastBefore(cal, last, edge, step) && 0 <= Dist(last, day, step)
    ensures ScanOn(cal, day, step, n) == None
    decreases n
  {
    if n != 0 {
      assert 0 < Dist(last, day + step, step);
      if 0 <= Dist(day + step, edge, step) { assert IsClosed(cal, day + step); } else { assert !cal.covers(day + step); }
      NothingBeyond(cal, last, edge, step, day + step, n - 1);
    }
  }

  lemma {:induction false} ForwardBeyond(cal: Calendar, last: int, edge: int, forward: bool, m: nat)
    requires LastBefore(cal, last, edge, StepOf(forward))
    ensures ShiftMany(cal, last, m, forward) == NthWeekday(last, StepOf(forward), m)
  {
    hide ScanOn, SkipWeekend, Weekday, LastBefore;
    if m != 0 {
      ForwardBeyond(cal, last, edge, forward, m - 1);
      FurtherStill(last, StepOf(forward), 0, m - 1);
      NothingBeyond(cal, last, edge, StepOf(forward), NthWeekday(last, StepOf(forward), m - 1), MAX_SCAN_DAYS);
    }
  }

  /** Scanning back over closed days finds the last session, if it is near enough. */
  lemma {:induction false} ScanToLast(cal: Calendar, last: int, edge: int, step: int, day: int, n: nat)
    requires (step == 1 || step == -1) && LastBefore(cal, last, edge, step)
    requires 0 < Dist(last, day, step) && 0 <= Dist(day - step, edge, step)
    ensures ScanOn(cal, day, -step, n) == if Dist(last, day, step) <= n then Some(last) else None
    decreases n
  {
    if n != 0 {
      var near := day + -step;
      assert Dist(last, near, step) == Dist(last, day, step) - 1;
      if near != last {
        assert IsClosed(cal, near);
        assert Dist(near - step, edge, step) == Dist(near, edge, step) + 1;
        ScanToLast(cal, last, edge, step, near, n - 1);
      }
    }
  }

  /** One shift back from the m-th weekday past the last session: to the weekday before it, or straight to the last session. */
  lemma BackOne(cal: Calendar, last: int, edge: int, forward: bool, m: nat)
    requires LastBefore(cal, last, edge, StepOf(forward)) && Weekday(last) < 5 && 0 < m
    ensures
      var step, at := StepOf(forward), NthWeekday(last, StepOf(forward), m);
      var back := ShiftOne(cal, at, !forward);
      && (back == last || back == NthWeekday(last, step, m - 1))
      && (0 < Dist(edge, at - step, step) ==> back == NthWeekday(last, step, m - 1))
      && (0 <= Dist(at - step, edge, step) && Dist(last, at, step) <= MAX_SCAN_DAYS ==> back == last)
  {
    var step, at, before := StepOf(forward), NthWeekday(last, StepOf(forward), m), NthWeekday(last, StepOf(forward), m - 1);
    assert at == SkipWeekend(before + step, step) && StepOf(!forward) == -step;
    assert Weekday(before) < 5 by { if 1 < m { Further(last, step, m - 2); } }
    FurtherStill(last, step, 0, m - 1);
    Further(last, step, m - 1);
    WeekdayBack(before, step);
    assert NthWeekday(last, step, 0) == last;
    hide NthWeekday, SkipWeekend, Weekday;
    if 0 <= Dist(at - step, edge, step) {
      ScanToLast(cal, last, edge, step, at, MAX_SCAN_DAYS);
    } else {
      assert !cal.covers(at - step);
      ScanNear(cal, at, -step);
    }
    hide ScanOn, LastBefore;
    BackIs(cal, at, forward);
  }

  lemma BackIs(cal: Calendar, at: int, forward: bool)
    ensures
      var step, found := StepOf(forward), ScanOn(cal, at, -StepOf(forward), MAX_SCAN_DAYS);
      ShiftOne(cal, at, !forward) == if found.Some? then found.value else SkipWeekend(at - step, -step)
  {
    hide ScanOn, SkipWeekend;
  }

  /** Shifts that way always move on. */
  lemma ShiftMoves(cal: Calendar, day: int, forward: bool)
    ensures 0 < Dist(day, ShiftOne(cal, day, forward), StepOf(forward))
  {
    var to := ShiftOne(cal, day, forward);
    NextIsAdjacent(cal, day, MAX_SCAN_DAYS, to);
    PreviousIsAdjacent(cal, day, MAX_SCAN_DAYS, to);
    SkipWeekendIs(day + StepOf(forward), StepOf(forward));
    hide ScanOn, SkipWeekend, Weekday;
  }

  lemma {:induction false} ManyMove(cal: Calendar, day: int, n: nat, forward: bool)
    requires 0 < n
    ensures 0 < Dist(day, ShiftMany(cal, day, n, forward), StepOf(forward))
  {
    hide ShiftOne;
    ShiftMoves(cal, ShiftMany(cal, day, n - 1, forward), forward);
    if 1 < n {
      ManyMove(cal, day, n - 1, forward);
    }
  }

  lemma {:induction false} ShiftAdds(cal: Calendar, day: int, a: nat, b: nat, forward: bool)
    ensures ShiftMany(cal, day, a + b, forward) == ShiftMany(cal, ShiftMany(cal, day, a, forward), b, forward)
  {
    hide ShiftOne;
    if b != 0 {
      ShiftAdds(cal, day, a, b - 1, forward);
    }
  }

  /** Whether a second weekday past the last session still meets the covered days. */
  predicate SecondMeets(last: int, edge: int, step: int)
    requires step == 1 || step == -1
  {
    0 <= Dist(NthWeekday(last, step, 2) - step, edge, step)
  }

  /** m shifts back from the m-th weekday: to the last session if the second weekday is clear of coverage, else past it. */
  lemma {:induction false} BackMany(cal: Calendar, last: int, edge: int, forward: bool, m: nat) returns (extra: nat)
    requires LastBefore(cal, last, edge, StepOf(forward)) && Weekday(last) < 5
    ensures ShiftMany(cal, NthWeekday(last, StepOf(forward), m), m, !forward) == ShiftMany(cal, last, extra, !forward)
    ensures extra == 0 <==> m <= 1 || !SecondMeets(last, edge, StepOf(forward))
  {
    hide ShiftOne, LastBefore, Weekday, SkipWeekend;
    var step := StepOf(forward);
    assert NthWeekday(last, step, 0) == last;
    hide NthWeekday;
    if m == 0 {
      return 0;
    }
    var at := NthWeekday(last, step, m);
    BackOne(cal, last, edge, forward, m);
    ShiftFirst(cal, at, m - 1, !forward);
    if m == 1 {
      return 0;
    }
    if m == 2 {
      SecondBack(cal, last, edge, forward);
    } else if 0 <= Dist(at - step, edge, step) {
      ClearStaysClear(last, edge, step, m);
    }
    hide SecondMeets, Dist;
    if ShiftOne(cal, at, !forward) == NthWeekday(last, step, m - 1) && (m != 2 || !SecondMeets(last, edge, step)) {
      extra := BackMany(cal, last, edge, forward, m - 1);
    } else {
      extra := m - 1;
    }
  }

  /** From the second weekday one shift back skips the first exactly when it meets the covered days. */
  lemma SecondBack(cal: Calendar, last: int, edge: int, forward: bool)
    requires LastBefore(cal, last, edge, StepOf(forward)) && Weekday(last) < 5
    ensures
      var step := StepOf(forward);
      ShiftOne(cal, NthWeekday(last, step, 2), !forward) ==
        if SecondMeets(last, edge, step) then last else NthWeekday(last, step, 1)
  {
    var step := StepOf(forward);
    BackOne(cal, last, edge, forward, 2);
    Further(last, step, 0);
    Further(last, step, 1);
    assert NthWeekday(last, step, 0) == last;
    hide ShiftOne, LastBefore, Weekday, SkipWeekend, NthWeekday;
  }

  lemma ClearStaysClear(last: int, edge: int, step: int, m: nat)
    requires (step == 1 || step == -1) && 2 <= m && 0 <= Dist(NthWeekday(last, step, m) - step, edge, step)
    ensures SecondMeets(last, edge, step)
  {
    FurtherStill(last, step, 2, m);
  }

  /**
   Past the end of coverage, for every number of sessions, either way: from a trading day, a sessions
   to the last one, a weekday, and m more, then all of them back, return if and only if m is at most
   one or the second weekday past the last session lies clear of the covered days.
   */
  lemma RoundTripPastEnd(cal: Calendar, day: int, a: nat, m: nat, edge: int, forward: bool)
    requires IsTrading(cal, day) && InCoverage(cal, day, a, forward)
    requires LastBefore(cal, ShiftMany(cal, day, a, forward), edge, StepOf(forward))
    requires Weekday(ShiftMany(cal, day, a, forward)) < 5
    ensures ShiftMany(cal, ShiftMany(cal, day, a + m, forward), a + m, !forward) == day <==>
      m <= 1 || !SecondMeets(ShiftMany(cal, day, a, forward), edge, StepOf(forward))
  {
    hide ShiftOne, LastBefore, Weekday, SecondMeets;
    var last := ShiftMany(cal, day, a, forward);
    ShiftAdds(cal, day, a, m, forward);
    ForwardBeyond(cal, last, edge, forward, m);
    var extra := BackMany(cal, last, edge, forward, m);
    var end := NthWeekday(last, StepOf(forward), m);
    ShiftAdds(cal, end, m, a, !forward);
    ShiftAdds(cal, last, extra, a, !forward);
    ShiftAdds(cal, last, a, extra, !forward);
    ShiftReturns(cal, day, a, forward);
    if extra != 0 {
      ManyMove(cal, day, extra, !forward);
    }
  }

  // A calendar that covers a span, without 31 days on end and no session, is enough.

  /** One of the 31 days from d on is a session. */
  ghost predicate SessionNear(cal: Calendar, d: int) { exists e | d <= e < d + MAX_SCAN_DAYS :: IsTrading(cal, e) }

  /** Every day of the span is covered, and any 31 days in a row within it hold a session. */
  ghost predicate WellCovered(cal: Calendar, lo: int, hi: int) {
    && (forall d | lo <= d <= hi :: cal.covers(d))
    && (forall d | lo <= d && d + MAX_SCAN_DAYS - 1 <= hi :: SessionNear(cal, d))
  }

  lemma {:induction false} ScanForward(cal: Calendar, day: int, n: nat, e: int)
    requires day < e <= day + n && IsTrading(cal, e) && forall d | day < d <= e :: cal.covers(d)
    ensures var found := ScanOn(cal, day, 1, n); found.Some? && day < found.value <= e
    decreases n
  {
    if !IsTrading(cal, day + 1) {
      ScanForward(cal, day + 1, n - 1, e);
    }
  }

  lemma {:induction false} ScanBackward(cal: Calendar, day: int, n: nat, e: int)
    requires day - n <= e < day && IsTrading(cal, e) && forall d | e <= d < day :: cal.covers(d)
    ensures var found := ScanOn(cal, day, -1, n); found.Some? && e <= found.value < day
    decreases n
  {
    if !IsTrading(cal, day - 1) {
      ScanBackward(cal, day - 1, n - 1, e);
    }
  }

  /** With a session still ahead in the span, the scan finds the next one. */
  lemma NextInSpan(cal: Calendar, lo: int, hi: int, day: int, e: int)
    requires WellCovered(cal, lo, hi) && lo <= day < e <= hi && IsTrading(cal, e)
    ensures NextDay(cal, day).Some? && day < NextDay(cal, day).value <= e
  {
    if e <= day + MAX_SCAN_DAYS {
      ScanForward(cal, day, MAX_SCAN_DAYS, e);
    } else {
      assert SessionNear(cal, day + 1);
      var near :| day + 1 <= near < day + 1 + MAX_SCAN_DAYS && IsTrading(cal, near);
      ScanForward(cal, day, MAX_SCAN_DAYS, near);
    }
  }

  lemma PreviousInSpan(cal: Calendar, lo: int, hi: int, day: int, e: int)
    requires WellCovered(cal, lo, hi) && lo <= e < day <= hi && IsTrading(cal, e)
    ensures PreviousDay(cal, day).Some? && e <= PreviousDay(cal, day).value < day
  {
    if day - MAX_SCAN_DAYS <= e {
      ScanBackward(cal, day, MAX_SCAN_DAYS, e);
    } else {
      assert SessionNear(cal, day - MAX_SCAN_DAYS);
      var near :| day - MAX_SCAN_DAYS <= near < day && IsTrading(cal, near);
      ScanBackward(cal, day, MAX_SCAN_DAYS, near);
    }
  }

  /** Sessions of [from, to]. */
  function Sessions(cal: Calendar, from: int, to: int): nat { |TradingDays(cal, from, Max(0, to - from + 1))| }

  /** More sessions up to a later day: one lies between. */
  lemma {:induction false} SessionBetween(cal: Calendar, start: int, a: nat, b: nat)
    requires a <= b && |TradingDays(cal, start, a)| < |TradingDays(cal, start, b)|
    ensures exists e | start + a <= e < start + b :: IsTrading(cal, e)
    decreases b
  {
    if !IsTrading(cal, start + b - 1) {
      SessionBetween(cal, start, a, b - 1);
    }
  }

  /** As many shifts forward find their session as there are sessions left in the span. */
  lemma {:induction false} ForwardCovered(cal: Calendar, lo: int, hi: int, day: int, n: nat)
    requires WellCovered(cal, lo, hi) && lo <= day <= hi && IsTrading(cal, day) && n < Sessions(cal, day, hi)
    ensures InCoverage(cal, day, n, true) && ShiftMany(cal, day, n, true) <= hi
  {
    hide ScanOn, WellCovered, SkipWeekend;
    if n != 0 {
      ForwardCovered(cal, lo, hi, day, n - 1);
      CountMatchesShift(cal, day, n - 1);
      var at := ShiftMany(cal, day, n - 1, true);
      SessionBetween(cal, day, at - day + 1, hi - day + 1);
      var e :| at + 1 <= e < hi + 1 && IsTrading(cal, e);
      NextInSpan(cal, lo, hi, at, e);
    }
  }

  /** And backward as there are behind: each takes one session off the count. */
  lemma {:induction false} BackwardCovered(cal: Calendar, lo: int, hi: int, day: int, n: nat)
    requires WellCovered(cal, lo, hi) && lo <= day <= hi && IsTrading(cal, day) && n < Sessions(cal, lo, day)
    ensures InCoverage(cal, day, n, false) && lo <= ShiftMany(cal, day, n, false) <= day
    ensures Sessions(cal, lo, ShiftMany(cal, day, n, false)) == Sessions(cal, lo, day) - n
  {
    hide ScanOn, WellCovered, SkipWeekend;
    if n != 0 {
      BackwardCovered(cal, lo, hi, day, n - 1);
      StaysTrading(cal, day, n - 1, false);
      var at := ShiftMany(cal, day, n - 1, false);
      assert |TradingDays(cal, lo, at - lo + 1)| == |TradingDays(cal, lo, at - lo)| + 1;
      assert TradingDays(cal, lo, 0) == [];
      SessionBetween(cal, lo, 0, at - lo);
      var e :| lo <= e < at && IsTrading(cal, e);
      PreviousInSpan(cal, lo, hi, at, e);
      var to := PreviousDay(cal, at).value;
      PreviousIsAdjacent(cal, at, MAX_SCAN_DAYS, to);
      NoSessionsBetween(cal, lo, to - lo + 1, at - lo);
    }
  }

  /**
   The promise in the calendar's own terms: from a trading day in a well covered span, k sessions
   there and k back return for every k the span has sessions for, and the days counted from it to
   its k-th successor are k + 1.
   */
  lemma CoveredRoundTrip(cal: Calendar, lo: int, hi: int, day: int, k: int)
    requires WellCovered(cal, lo, hi) && lo <= day <= hi && IsTrading(cal, day)
    requires if 0 < k then k < Sessions(cal, day, hi) else -k < Sessions(cal, lo, day)
    ensures ShiftSessions(cal, ShiftSessions(cal, day, k), -k) == day
    ensures 0 <= k ==> Sessions(cal, day, ShiftSessions(cal, day, k)) == k + 1
  {
    if 0 < k {
      ForwardCovered(cal, lo, hi, day, k);
      CountMatchesShift(cal, day, k);
    } else {
      BackwardCovered(cal, lo, hi, day, -k);
      CountMatchesShift(cal, day, 0);
    }
    ShiftRoundTrip(cal, day, k);
  }

  /**
   Past the end of coverage it can fail: with two closed days before the end, two shifts forward
   stand on closed weekdays, and two shifts back skip both and one session more.
   */
  lemma OutOfCoverageDrifts(times: Times)
    ensures
      // Trading Monday to Wednesday (0, 1, 2); Thursday and Friday are holidays; nothing from Saturday on.
      var cal := Calendar(d => d < 5, {3, 4}, map[], times);
      IsTrading(cal, 2) && ShiftSessions(cal, ShiftSessions(cal, 2, 2), -2) == 1
  {
    var cal := Calendar(d => d < 5, {3, 4}, map[], times);
    assert NextDay(cal, 2) == None by { assert ScanOn(cal, 4, 1, 29) == None; assert ScanOn(cal, 3, 1, 30) == None; }
    assert NextDay(cal, 3) == None by { assert ScanOn(cal, 4, 1, 30) == None; }
    assert ShiftOne(cal, 2, true) == 3 && ShiftOne(cal, 3, true) == 4;
    assert PreviousDay(cal, 4) == Some(2) by { assert ScanOn(cal, 3, -1, 30) == Some(2); }
    assert PreviousDay(cal, 2) == Some(1);
    assert ShiftMany(cal, 2, 1, true) == 3 && ShiftMany(cal, 2, 2, true) == 4;
    assert ShiftMany(cal, 4, 1, false) == 2 && ShiftMany(cal, 4, 2, false) == 1;
  }

  // ---- Counting sessions --------------------------------------------------------------------------------

  /** Trading days from start, n days in all. */
  function TradingDays(cal: Calendar, start: int, n: nat): seq<int> {
    if n == 0 then [] else
      TradingDays(cal, start, n - 1) + if IsTrading(cal, start + n - 1) then [start + n - 1] else []
  }

  /** The first day of the range the calendar does not cover makes it an error. */
  method ListTradingDays(cal: Calendar, start: int, end: int) returns (days: Option<seq<int>>)
    ensures days.Some? <==> forall d | start <= d <= end :: cal.covers(d)
    ensures days.Some? ==> days.value == TradingDays(cal, start, Max(0, end - start + 1))
  {
    var found: seq<int>, day := [], start;
    while day <= end
      invariant start <= day && (start <= end ==> day <= end + 1) && (end < start ==> day == start)
      invariant forall d | start <= d < day :: cal.covers(d)
      invariant found == TradingDays(cal, start, day - start)
      decreases end - day
    {
      match Session(cal, day) {
        case Uncovered => return None;
        case Trades(_) => found := found + [day];
        case NoSession =>
      }
      day := day + 1;
    }
    return Some(found);
  }

  /** They are exactly the trading days of the range, in order. */
  lemma {:induction false} TradingDaysAre(cal: Calendar, start: int, n: nat, day: int)
    ensures day in TradingDays(cal, start, n) <==> start <= day < start + n && IsTrading(cal, day)
    ensures forall i, j | 0 <= i < j < |TradingDays(cal, start, n)| :: TradingDays(cal, start, n)[i] < TradingDays(cal, start, n)[j]
    ensures forall d | d in TradingDays(cal, start, n) :: d < start + n
  {
    if n != 0 {
      TradingDaysAre(cal, start, n - 1, day);
      var before := TradingDays(cal, start, n - 1);
      assert forall i | 0 <= i < |before| :: before[i] in before;
    }
  }

  lemma {:induction false} NoSessionsBetween(cal: Calendar, start: int, a: nat, b: nat)
    requires a <= b && forall d | start + a <= d < start + b :: IsClosed(cal, d)
    ensures TradingDays(cal, start, b) == TradingDays(cal, start, a)
    decreases b
  {
    if a < b {
      NoSessionsBetween(cal, start, a, b - 1);
      assert IsClosed(cal, start + b - 1);
    }
  }

  /**
   Counted holding periods agree with stepped ones: the trading days from a trading day to its k-th
   successor number exactly k + 1.
   */
  lemma {:induction false} CountMatchesShift(cal: Calendar, day: int, k: nat)
    requires IsTrading(cal, day) && InCoverage(cal, day, k, true)
    ensures day <= ShiftMany(cal, day, k, true)
    ensures |TradingDays(cal, day, ShiftMany(cal, day, k, true) - day + 1)| == k + 1
  {
    if k == 0 {
      assert TradingDays(cal, day, 0) == [];
    } else {
      var at, to := ShiftMany(cal, day, k - 1, true), ShiftMany(cal, day, k, true);
      CountMatchesShift(cal, day, k - 1);
      StaysTrading(cal, day, k - 1, true);
      ShiftOneIs(cal, at, true);
      NoSessionsBetween(cal, day, at - day + 1, to - day);
    }
  }
}

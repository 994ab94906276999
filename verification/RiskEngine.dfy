/**
 Sizing in src/risk/engine.py and the reservations of src/risk/snapshot.py, over any list of checks:
 what one decision approves, and what a whole batch of them may spend.
 */
module RiskEngine {
  import opened Domain
  import opened Sums

  // ---- One proposal -----------------------------------------------------------------------------------

  /** An intent with the facts the engine derives for it: fresh price, stop distance, sector, lot. */
  datatype Proposal = Proposal(
    kind: IntentKind,
    side: Side,
    instrument: string,
    strategy: string,
    sector: string,
    lot: Quantity,
    requested: Option<int>,
    price: Option<Price>,
    stopDistance: Option<real>)
  {
    predicate Opening() { !kind.ReducesRisk() }
  }

  /** Capacity already granted in the batch. */
  datatype Reserved = Reserved(
    symbols: set<string>,
    gross: real,
    heat: real,
    cash: real,
    entries: nat,
    orders: nat,
    bySector: map<string, real>,
    byStrategy: map<string, real>)

  const NOTHING_RESERVED := Reserved({}, 0.0, 0.0, 0.0, 0, 0, map[], map[])

  datatype Verdict = Block | Resize(maxQty: nat) | Allow

  /** What calling a check does. */
  datatype Answer = Silent | Says(verdict: Verdict) | Raises

  datatype Check = Check(applies: set<IntentKind>, evaluate: (Proposal, Reserved) -> Answer)

  /** A check that throws blocks a risk increase and lets a reduction through. */
  function VerdictsOf(check: Check, p: Proposal, r: Reserved): seq<Verdict> {
    if p.kind !in check.applies then [] else
      match check.evaluate(p, r)
      case Silent => []
      case Says(v) => [v]
      case Raises => [if p.Opening() then Block else Allow]
  }

  function Verdicts(checks: seq<Check>, p: Proposal, r: Reserved): seq<Verdict> {
    if checks == [] then []
    else Verdicts(checks[..|checks| - 1], p, r) + VerdictsOf(checks[|checks| - 1], p, r)
  }

  /** The least cap, if any. */
  function Smallest(verdicts: seq<Verdict>): Option<nat> {
    if verdicts == [] then None else
      var rest, v := Smallest(verdicts[1..]), verdicts[0];
      if !v.Resize? then rest
      else if rest.None? || v.maxQty < rest.value then Some(v.maxQty) else rest
  }

  /** The sizing part of _decide: 0 is a rejection. */
  function Approved(verdicts: seq<Verdict>, p: Proposal): nat {
    var smallest := Smallest(verdicts);
    var size :=
      if smallest.Some? && (p.requested.None? || smallest.value < p.requested.value) then Some(smallest.value as int)
      else p.requested;
    if Block in verdicts || size.None? then 0
    else
      var lots := size.value - size.value % p.lot;
      if lots <= 0 then 0 else lots
  }

  function Evaluate(checks: seq<Check>, p: Proposal, r: Reserved): nat { Approved(Verdicts(checks, p, r), p) }

  // ---- What one decision promises ---------------------------------------------------------------------

  /** A quantity no cap and no request rules out. */
  predicate Within(n: int, verdicts: seq<Verdict>, p: Proposal) {
    && (p.requested.Some? ==> n <= p.requested.value)
    && (forall v | v in verdicts :: v.Resize? ==> n <= v.maxQty)
  }

  /** Something asks for a size: the request or a cap. */
  ghost predicate Sized(verdicts: seq<Verdict>, p: Proposal) {
    p.requested.Some? || exists v :: v in verdicts && v.Resize?
  }

  lemma {:induction false} SmallestIsLeast(verdicts: seq<Verdict>)
    ensures Smallest(verdicts).Some? ==> Resize(Smallest(verdicts).value) in verdicts
    ensures forall v | v in verdicts && v.Resize? :: Smallest(verdicts).Some? && Smallest(verdicts).value <= v.maxQty
  {
    if verdicts != [] {
      SmallestIsLeast(verdicts[1..]);
      assert verdicts == [verdicts[0]] + verdicts[1..];
    }
  }

  /**
   An approval is a whole number of lots within the request and every cap, and the largest such;
   nothing is approved over a block, or when nothing sized the order.
   */
  lemma ApprovedIsLargest(verdicts: seq<Verdict>, p: Proposal, n: nat)
    ensures Approved(verdicts, p) % p.lot == 0
    ensures 0 < Approved(verdicts, p) ==> Within(Approved(verdicts, p), verdicts, p) && Block !in verdicts
    ensures Block !in verdicts && Sized(verdicts, p) && n % p.lot == 0 && Within(n, verdicts, p)
      ==> n <= Approved(verdicts, p)
  {
    SmallestIsLeast(verdicts);
    var smallest := Smallest(verdicts);
    var size :=
      if smallest.Some? && (p.requested.None? || smallest.value < p.requested.value) then Some(smallest.value as int)
      else p.requested;
    if size.Some? {
      hide Smallest, Approved;
      LotsBelow(size.value, p.lot, n);
    }
  }

  /** Rounding down to lots gives the largest multiple not above. */
  lemma LotsBelow(size: int, lot: Quantity, n: nat)
    ensures (size - size % lot) % lot == 0 && size - size % lot <= size
    ensures n % lot == 0 && n <= size ==> n <= size - size % lot
  {
    var q, m := size / lot, n / lot;
    assert size - size % lot == lot * q;
    Multiple(q, lot);
    assert lot * (m - q) == lot * m - lot * q;
    AtLeastOneLot(lot, m - q);
    if n % lot == 0 && n <= size {
      assert n == lot * m;
      MonotoneLots(lot, m, q);
    }
  }

  lemma AtLeastOneLot(lot: Quantity, d: int)
    ensures 1 <= d ==> lot <= lot * d
    ensures d <= -1 ==> lot * d + lot <= 0
  {
  }

  lemma MonotoneLots(lot: Quantity, a: int, b: int)
    ensures a <= b ==> lot * a <= lot * b
  {
    assert lot * b - lot * a == lot * (b - a);
  }

  lemma Multiple(q: int, lot: Quantity)
    ensures (lot * q) % lot == 0
  {
    var k, r := (lot * q) / lot, (lot * q) % lot;
    assert r == lot * q - lot * k == lot * (q - k);
    AtLeastOneLot(lot, q - k);
    assert q == k;
  }

  /** A check that throws, anywhere in the list: no opening gets through, and a reduction as if it were not there. */
  lemma BrokenCheck(before: seq<Check>, broken: Check, after: seq<Check>, p: Proposal, r: Reserved)
    requires p.kind in broken.applies && broken.evaluate(p, r) == Raises
    ensures Evaluate(before + [broken] + after, p, r) == if p.Opening() then 0 else Evaluate(before + after, p, r)
  {
    VerdictsConcat(before + [broken], after, p, r);
    VerdictsConcat(before, [broken], p, r);
    VerdictsConcat(before, after, p, r);
    assert [broken][..0] == [] && Verdicts([broken], p, r) == [if p.Opening() then Block else Allow];
    hide Verdicts;
    AllowAdds(Verdicts(before, p, r), Verdicts(after, p, r), p);
    if p.Opening() {
      assert (Verdicts(before, p, r) + [Block] + Verdicts(after, p, r))[|Verdicts(before, p, r)|] == Block;
    }
  }

  lemma {:induction false} VerdictsConcat(a: seq<Check>, b: seq<Check>, p: Proposal, r: Reserved)
    ensures Verdicts(a + b, p, r) == Verdicts(a, p, r) + Verdicts(b, p, r)
  {
    if b == [] {
      assert a + b == a;
    } else {
      assert (a + b)[..|a + b| - 1] == a + b[..|b| - 1];
      VerdictsConcat(a, b[..|b| - 1], p, r);
    }
  }

  lemma {:induction false} SmallestConcat(a: seq<Verdict>, b: seq<Verdict>)
    ensures
      var x, y := Smallest(a), Smallest(b);
      Smallest(a + b) == if x.None? then y else if y.None? || x.value <= y.value then x else y
  {
    if a == [] {
      assert a + b == b;
    } else {
      assert (a + b)[1..] == a[1..] + b;
      SmallestConcat(a[1..], b);
    }
  }

  lemma AllowAdds(a: seq<Verdict>, b: seq<Verdict>, p: Proposal)
    ensures Approved(a + [Allow] + b, p) == Approved(a + b, p)
  {
    SmallestConcat(a + [Allow], b);
    SmallestConcat(a, [Allow]);
    SmallestConcat(a, b);
    assert Block in a + [Allow] + b <==> Block in a + b;
    hide Smallest;
    assert [Allow][1..] == [];
  }

  // ---- Reservations -----------------------------------------------------------------------------------

  function Bump(m: map<string, real>, k: string, v: real): map<string, real> {
    m[k := (if k in m then m[k] else 0.0) + v]
  }

  function Notional(p: Proposal, quantity: nat): real
    requires p.price.Some?
  {
    p.price.value * quantity as real
  }

  /** What the order risks down to its stop. */
  function HeatOf(p: Proposal, quantity: nat): real {
    if p.stopDistance.Some? then p.stopDistance.value * quantity as real else 0.0
  }

  /** Reservations.add; an order already submitted is not counted again, only its exposure is reserved. */
  function Reserve(r: Reserved, p: Proposal, quantity: nat, counted: bool): Reserved {
    var one := if counted then 1 else 0;
    var r1 := r.(orders := r.orders + one);
    if !p.Opening() || p.price.None? then r1
    else
      var notional := Notional(p, quantity);
      r1.(symbols := r.symbols + {p.instrument}, gross := r.gross + notional, cash := r.cash + notional,
          entries := r.entries + one,
          heat := r.heat + HeatOf(p, quantity),
          bySector := Bump(r.bySector, p.sector, notional),
          byStrategy := Bump(r.byStrategy, p.strategy, notional))
  }

  /** evaluate_batch: the approvals and what they reserved. */
  function Batch(checks: seq<Check>, ps: seq<Proposal>): (r: (seq<nat>, Reserved))
    ensures |r.0| == |ps|
  {
    if ps == [] then ([], NOTHING_RESERVED) else
      var (sizes, reserved) := Batch(checks, ps[..|ps| - 1]);
      var p := ps[|ps| - 1];
      var n := Evaluate(checks, p, reserved);
      (sizes + [n], if 0 < n then Reserve(reserved, p, n, true) else reserved)
  }

  // ---- Budgets ----------------------------------------------------------------------------------------

  /** What a reservation counts against. */
  datatype Budget = Gross | Cash | Heat | Sector(sector: string) | Allocation(strategy: string) {
    function Used(r: Reserved): real {
      match this
      case Gross => r.gross
      case Cash => r.cash
      case Heat => r.heat
      case Sector(s) => if s in r.bySector then r.bySector[s] else 0.0
      case Allocation(s) => if s in r.byStrategy then r.byStrategy[s] else 0.0
    }

    /** What n shares of a priced opening order take of it. */
    function Takes(p: Proposal, n: nat): real
      requires p.price.Some?
    {
      match this
      case Heat => HeatOf(p, n)
      case Sector(s) => if p.sector == s then Notional(p, n) else 0.0
      case Allocation(s) => if p.strategy == s then Notional(p, n) else 0.0
      case _ => Notional(p, n)
    }

    /** Whether the order draws on it at all. */
    predicate Spends(p: Proposal) {
      match this
      case Heat => p.stopDistance.Some? && 0.0 < p.stopDistance.value
      case Sector(s) => p.sector == s
      case Allocation(s) => p.strategy == s
      case _ => true
    }
  }

  /** What an approval takes of a budget: nothing for a reduction or without a price. */
  function Adds(b: Budget, p: Proposal, n: nat): real {
    if p.Opening() && p.price.Some? then b.Takes(p, n) else 0.0
  }

  /** What the approvals take of a budget, added up. */
  function Spent(b: Budget, ps: seq<Proposal>, sizes: seq<nat>): real
    requires |sizes| == |ps|
  {
    if ps == [] then 0.0 else Spent(b, ps[..|ps| - 1], sizes[..|ps| - 1]) + Adds(b, ps[|ps| - 1], sizes[|ps| - 1])
  }

  lemma NothingTaken(b: Budget, p: Proposal)
    ensures Adds(b, p, 0) == 0.0
  {
  }

  lemma ReserveAdds(b: Budget, r: Reserved, p: Proposal, n: nat, counted: bool)
    ensures b.Used(Reserve(r, p, n, counted)) == b.Used(r) + Adds(b, p, n)
  {
  }

  /** The counters one reservation moves: the orders if counted, and for a priced opening the entries if counted and its instrument. */
  lemma ReserveCounts(r: Reserved, p: Proposal, n: nat, counted: bool)
    ensures
      var r', one, opens := Reserve(r, p, n, counted), if counted then 1 else 0, p.Opening() && p.price.Some?;
      && r'.orders == r.orders + one && r'.entries == r.entries + (if opens then one else 0)
      && r'.symbols == r.symbols + (if opens then {p.instrument} else {})
  {
  }

  /** Every budget's reservation is exactly what the batch's approvals take of it, whatever the checks. */
  lemma {:induction false} BatchReserves(checks: seq<Check>, b: Budget, ps: seq<Proposal>)
    ensures b.Used(Batch(checks, ps).1) == Spent(b, ps, Batch(checks, ps).0)
  {
    if ps != [] {
      NothingTaken(b, ps[|ps| - 1]);
      hide Evaluate, Reserve, Adds;
      var init, p := ps[..|ps| - 1], ps[|ps| - 1];
      BatchReserves(checks, b, init);
      var (sizes, r) := Batch(checks, init);
      var n := Evaluate(checks, p, r);
      assert Batch(checks, ps).0[..|init|] == sizes;
      ReserveAdds(b, r, p, n, true);
    }
  }

  /** How many approvals a batch has, all or openings with a price, and of which instruments. */
  function Granted(ps: seq<Proposal>, sizes: seq<nat>, entriesOnly: bool): nat
    requires |sizes| == |ps|
  {
    if ps == [] then 0 else
      var p, n := ps[|ps| - 1], sizes[|ps| - 1];
      Granted(ps[..|ps| - 1], sizes[..|ps| - 1], entriesOnly)
        + if 0 < n && (!entriesOnly || (p.Opening() && p.price.Some?)) then 1 else 0
  }

  /** The instruments of the approved priced openings. */
  function GrantedIn(ps: seq<Proposal>, sizes: seq<nat>): set<string>
    requires |sizes| == |ps|
  {
    if ps == [] then {} else
      var p, n := ps[|ps| - 1], sizes[|ps| - 1];
      GrantedIn(ps[..|ps| - 1], sizes[..|ps| - 1]) + if 0 < n && p.Opening() && p.price.Some? then {p.instrument} else {}
  }

  /** The batch's counters: one order per approval, one entry per priced opening, and exactly their instruments. */
  lemma {:induction false} BatchCounts(checks: seq<Check>, ps: seq<Proposal>)
    ensures
      var (sizes, r) := Batch(checks, ps);
      r.orders == Granted(ps, sizes, false) && r.entries == Granted(ps, sizes, true) && r.symbols == GrantedIn(ps, sizes)
  {
    if ps != [] {
      var init, p := ps[..|ps| - 1], ps[|ps| - 1];
      var (sizes, r) := Batch(checks, init);
      var n := Evaluate(checks, p, r);
      BatchCounts(checks, init);
      ReserveCounts(r, p, n, true);
      hide Evaluate, Reserve;
      var (sizes', r') := Batch(checks, ps);
      assert sizes' == sizes + [n] && sizes'[..|init|] == sizes;
      hide Batch;
    }
  }

  lemma BumpSum(m: map<string, real>, k: string, v: real)
    ensures Sum(Bump(m, k, v)) == Sum(m) + v
  {
    SumUpdate(m, k, (if k in m then m[k] else 0.0) + v);
  }

  ghost predicate Balances(r: Reserved) { r.gross == r.cash == Sum(r.bySector) == Sum(r.byStrategy) }

  lemma ReserveBalances(r: Reserved, p: Proposal, n: nat, counted: bool)
    requires Balances(r)
    ensures Balances(Reserve(r, p, n, counted))
  {
    hide Sum, Bump;
    if p.Opening() && p.price.Some? {
      BumpSum(r.bySector, p.sector, Notional(p, n));
      BumpSum(r.byStrategy, p.strategy, Notional(p, n));
    }
  }

  lemma {:induction false} BatchBalances(checks: seq<Check>, ps: seq<Proposal>)
    ensures Balances(Batch(checks, ps).1)
  {
    if ps != [] {
      hide Evaluate, Balances, Reserve;
      var init, p := ps[..|ps| - 1], ps[|ps| - 1];
      BatchBalances(checks, init);
      var r := Batch(checks, init).1;
      ReserveBalances(r, p, Evaluate(checks, p, r), true);
    }
  }

  /** Gross = cash = the sum over sectors = the sum over strategies = the approved opening notional. */
  lemma ReservationsBalance(checks: seq<Check>, ps: seq<Proposal>)
    ensures
      var (sizes, r) := Batch(checks, ps);
      r.gross == r.cash == Sum(r.bySector) == Sum(r.byStrategy) == Spent(Gross, ps, sizes)
  {
    hide Batch, Spent;
    BatchBalances(checks, ps);
    BatchReserves(checks, Gross, ps);
  }

  // ---- Limits over a batch ------------------------------------------------------------------------------

  /** A check that lets no opening order through without a price. */
  ghost predicate BlocksUnpriced(check: Check) {
    forall p: Proposal, r: Reserved | p.Opening() && p.price.None? ::
      p.kind in check.applies && (check.evaluate(p, r) == Raises || check.evaluate(p, r) == Says(Block))
  }

  /**
   A check that keeps a priced opening order within what the reservations leave of `room`: whatever is
   reserved, it blocks, throws, or caps it. Of an order without a price it may say anything.
   */
  ghost predicate Caps(check: Check, b: Budget, room: real, p: Proposal) {
    p.Opening() && p.price.Some? ==>
      && p.kind in check.applies
      && forall r: Reserved ::
           match check.evaluate(p, r)
           case Raises => true
           case Says(Block) => true
           case Says(Resize(n)) => n == 0 || b.Used(r) + b.Takes(p, n) <= room
           case _ => false
  }

  /** Some check of the list does, for this order. */
  ghost predicate Capped(checks: seq<Check>, b: Budget, room: real, p: Proposal) {
    exists i | 0 <= i < |checks| :: Caps(checks[i], b, room, p)
  }

  lemma {:induction false} VerdictsInclude(checks: seq<Check>, i: nat, p: Proposal, r: Reserved)
    requires i < |checks|
    ensures forall v | v in VerdictsOf(checks[i], p, r) :: v in Verdicts(checks, p, r)
  {
    if i < |checks| - 1 {
      VerdictsInclude(checks[..|checks| - 1], i, p, r);
    }
  }

  /** What a capping check says of a priced opening order. */
  lemma CapOf(check: Check, b: Budget, room: real, p: Proposal, r: Reserved)
    requires Caps(check, b, room, p) && p.Opening() && p.price.Some?
    ensures
      var own := VerdictsOf(check, p, r);
      && |own| == 1
      && (own[0] == Block
          || (own[0].Resize? && (own[0].maxQty == 0 || b.Used(r) + b.Takes(p, own[0].maxQty) <= room)))
  {
    var answer := check.evaluate(p, r);
  }

  lemma MoreTakesMore(b: Budget, p: Proposal, n: nat, m: nat)
    requires p.price.Some? && n <= m
    ensures b.Spends(p) ==> b.Takes(p, n) <= b.Takes(p, m)
    ensures !b.Spends(p) ==> b.Takes(p, n) <= 0.0
  {
  }

  /** Whatever is already reserved, also for orders still in flight: an approval fits what is left. */
  lemma ApprovalFits(checks: seq<Check>, b: Budget, room: real, p: Proposal, r: Reserved)
    requires Capped(checks, b, room, p) && p.Opening() && p.price.Some? && b.Spends(p)
    ensures
      var n := Evaluate(checks, p, r);
      0 < n ==> b.Used(r) + b.Takes(p, n) <= room
  {
    hide Verdicts, Approved, VerdictsOf, Caps;
    var i :| 0 <= i < |checks| && Caps(checks[i], b, room, p);
    var n := Evaluate(checks, p, r);
    var verdicts, own := Verdicts(checks, p, r), VerdictsOf(checks[i], p, r);
    CapOf(checks[i], b, room, p, r);
    VerdictsInclude(checks, i, p, r);
    ApprovedIsLargest(verdicts, p, 0);
    assert own[0] in verdicts;
    if 0 < n {
      MoreTakesMore(b, p, n, own[0].maxQty);
    }
  }

  lemma UnpricedRejected(checks: seq<Check>, i: nat, p: Proposal, r: Reserved)
    requires i < |checks| && BlocksUnpriced(checks[i]) && p.Opening() && p.price.None?
    ensures Evaluate(checks, p, r) == 0
  {
    VerdictsInclude(checks, i, p, r);
    var answer := checks[i].evaluate(p, r);
    assert answer == Raises || answer == Says(Block);
    assert VerdictsOf(checks[i], p, r) == [Block];
    assert VerdictsOf(checks[i], p, r)[0] == Block;
  }

  function RealMax(a: real, b: real): real { if a < b then b else a }

  /** With a capping check anywhere in the list, a whole batch stays within the limit, not just each order. */
  lemma {:induction false} BatchWithinLimit(checks: seq<Check>, b: Budget, room: real, ps: seq<Proposal>)
    requires forall p | p in ps :: b.Spends(p) ==> Capped(checks, b, room, p)
    ensures b.Used(Batch(checks, ps).1) <= RealMax(0.0, room)
  {
    if ps != [] {
      hide Evaluate, Capped, Reserve, Approved, Verdicts;
      var init, p := ps[..|ps| - 1], ps[|ps| - 1];
      assert p in ps && forall q | q in init :: q in ps;
      BatchWithinLimit(checks, b, room, init);
      var r := Batch(checks, init).1;
      var n := Evaluate(checks, p, r);
      ReserveAdds(b, r, p, n, true);
      if 0 < n && p.Opening() && p.price.Some? {
        MoreTakesMore(b, p, n, n);
        if b.Spends(p) { ApprovalFits(checks, b, room, p, r); }
      }
    }
  }

  /**
   With one check that blocks unpriced openings and one that caps, the approvals of a batch take no
   more of the budget than the room there was, and every opening among them has a price to count.
   */
  lemma BatchSpendsWithinLimit(checks: seq<Check>, i: nat, b: Budget, room: real, ps: seq<Proposal>, k: nat)
    requires i < |checks| && BlocksUnpriced(checks[i]) && k < |ps|
    requires forall p | p in ps :: b.Spends(p) ==> Capped(checks, b, room, p)
    ensures Spent(b, ps, Batch(checks, ps).0) <= RealMax(0.0, room)
    ensures ps[k].Opening() && 0 < Batch(checks, ps).0[k] ==> ps[k].price.Some?
  {
    hide Capped, BlocksUnpriced, Spent;
    BatchWithinLimit(checks, b, room, ps);
    BatchReserves(checks, b, ps);
    ApprovedArePriced(checks, i, ps, k);
  }

  lemma {:induction false} ApprovedArePriced(checks: seq<Check>, i: nat, ps: seq<Proposal>, k: nat)
    requires i < |checks| && BlocksUnpriced(checks[i]) && k < |ps|
    ensures ps[k].Opening() && 0 < Batch(checks, ps).0[k] ==> ps[k].price.Some?
  {
    hide BlocksUnpriced, Evaluate, Reserve;
    var init, p := ps[..|ps| - 1], ps[|ps| - 1];
    if k < |init| {
      ApprovedArePriced(checks, i, init, k);
    } else if p.Opening() && p.price.None? {
      UnpricedRejected(checks, i, p, Batch(checks, init).1);
    }
  }

  // ---- The engine's own capacity checks -------------------------------------------------------------------

  const OPENS: set<IntentKind> := {OpenRisk, IncreaseRisk}

  /** Whole shares that an amount buys. */
  function Shares(amount: real, perShare: real): nat {
    if perShare <= 0.0 || amount <= 0.0 then 0
    else
      var n := (amount / perShare).Floor;
      if n < 0 then 0 else n
  }

  lemma SharesFit(amount: real, perShare: real)
    requires 0.0 < perShare
    ensures 0 < Shares(amount, perShare) ==> perShare * Shares(amount, perShare) as real <= amount
  {
    if 0.0 < amount {
      var n := Shares(amount, perShare);
      assert n as real <= amount / perShare;
      assert perShare * n as real <= perShare * (amount / perShare) == amount;
    }
  }

  /** Block at the limit, else cap to the shares that fit under it. */
  function Room(used: real, limit: real, perShare: real): Answer {
    if limit <= used then Says(Block) else Says(Resize(Shares(limit - used, perShare)))
  }

  /** And no cap is tighter than it must be: below the limit it is the most shares that fit. */
  lemma RoomIsLargest(used: real, limit: real, perShare: Price)
    ensures
      var a := Room(used, limit, perShare);
      && (limit <= used <==> a == Says(Block))
      && (used < limit ==>
            && a.Says? && a.verdict.Resize?
            && used + perShare * a.verdict.maxQty as real <= limit < used + perShare * a.verdict.maxQty as real + perShare)
  {
    if used < limit {
      WholeUnits(limit - used, perShare);
      assert 0.0 <= (limit - used) / perShare;
    }
  }

  const CASH_BUFFER := 1.0065

  /** What the snapshot says is already used, and the limits. */
  datatype Exposure = Exposure(
    gross: real, grossLimit: real,
    heat: real, heatLimit: real,
    sector: string -> real, sectorLimit: real,
    deployed: string -> real, allocation: real,
    cash: real,
    riskBudget: Proposal -> real,         // what one trade may lose
    allowShort: bool,
    stale: Proposal -> bool)

  function StaleCheck(k: Exposure): Check {
    Check(OPENS, (p: Proposal, _) => if p.price.None? || k.stale(p) then Says(Block) else Silent)
  }

  function GrossCheck(k: Exposure): Check {
    Check(OPENS, (p: Proposal, r: Reserved) =>
      if p.price.None? then Silent else Room(k.gross + r.gross, k.grossLimit, p.price.value))
  }

  function SectorCheck(k: Exposure): Check {
    Check(OPENS, (p: Proposal, r: Reserved) =>
      if p.price.None? then Silent
      else Room(k.sector(p.sector) + Sector(p.sector).Used(r), k.sectorLimit, p.price.value))
  }

  function AllocationCheck(k: Exposure): Check {
    Check(OPENS, (p: Proposal, r: Reserved) =>
      if p.price.None? then Silent
      else Room(k.deployed(p.strategy) + Allocation(p.strategy).Used(r), k.allocation, p.price.value))
  }

  function HeatCheck(k: Exposure): Check {
    Check(OPENS, (p: Proposal, r: Reserved) =>
      if p.stopDistance.None? || p.stopDistance.value <= 0.0 then Silent
      else Room(k.heat + r.heat, k.heatLimit, p.stopDistance.value))
  }

  function CashCheck(k: Exposure): Check {
    Check(OPENS, (p: Proposal, r: Reserved) =>
      if p.price.None? || p.side == Sell then Silent else Room(r.cash, k.cash, p.price.value * CASH_BUFFER))
  }

  /** short_not_allowed: no opening sale unless the limits allow shorts. */
  function ShortCheck(k: Exposure): Check {
    Check(OPENS, (p: Proposal, _) => if p.side == Sell && !k.allowShort then Says(Block) else Silent)
  }

  /** risk_per_trade: an entry needs a stop, and its size is capped by what it may lose down to it. */
  function RiskCheck(k: Exposure): Check {
    Check(OPENS, (p: Proposal, _) =>
      if p.stopDistance.None? then Says(Block)
      else if p.stopDistance.value <= 0.0 then Silent
      else Says(Resize(Shares(k.riskBudget(p), p.stopDistance.value))))
  }

  /** stop_wrong_side: the stop must lie on the losing side of the price. */
  function StopSideCheck(): Check {
    Check(OPENS, (p: Proposal, _) =>
      if p.stopDistance.Some? && p.stopDistance.value <= 0.0 then Says(Block) else Silent)
  }

  /** The room each budget had before the batch. */
  function RoomFor(k: Exposure, b: Budget): real {
    match b
    case Gross => k.grossLimit - k.gross
    case Cash => k.cash
    case Heat => k.heatLimit - k.heat
    case Sector(s) => k.sectorLimit - k.sector(s)
    case Allocation(s) => k.allocation - k.deployed(s)
  }

  function CapFor(k: Exposure, b: Budget): Check {
    match b
    case Gross => GrossCheck(k)
    case Cash => CashCheck(k)
    case Heat => HeatCheck(k)
    case Sector(_) => SectorCheck(k)
    case Allocation(_) => AllocationCheck(k)
  }

  lemma OpeningKinds(p: Proposal)
    ensures p.Opening() <==> p.kind in OPENS
  {
  }

  lemma RoomCaps(used: real, limit: real, perShare: real)
    requires 0.0 < perShare
    ensures
      var a := Room(used, limit, perShare);
      a.Says? && (a.verdict == Block
        || (a.verdict.Resize? && (a.verdict.maxQty == 0 || used + perShare * a.verdict.maxQty as real <= limit)))
  {
    SharesFit(limit - used, perShare);
    hide Shares;
  }

  /** An opening sale is not asked about by the cash check; every other opening is capped by its budget's check. */
  lemma OwnCheckCaps(k: Exposure, b: Budget, p: Proposal)
    requires b.Spends(p) && (b == Cash ==> p.side == Buy)
    ensures Caps(CapFor(k, b), b, RoomFor(k, b), p)
  {
    if p.Opening() && p.price.Some? {
      OpeningKinds(p);
      forall r: Reserved
        ensures
          var a := CapFor(k, b).evaluate(p, r);
          a.Says? && (a.verdict == Block
            || (a.verdict.Resize? && (a.verdict.maxQty == 0 || b.Used(r) + b.Takes(p, a.verdict.maxQty) <= RoomFor(k, b))))
      {
        OwnCheckAnswer(k, b, p, r);
      }
    }
  }

  lemma OwnCheckAnswer(k: Exposure, b: Budget, p: Proposal, r: Reserved)
    requires b.Spends(p) && p.price.Some? && (b == Cash ==> p.side == Buy)
    ensures
      var a := CapFor(k, b).evaluate(p, r);
      a.Says? && (a.verdict == Block
        || (a.verdict.Resize? && (a.verdict.maxQty == 0 || b.Used(r) + b.Takes(p, a.verdict.maxQty) <= RoomFor(k, b))))
  {
    hide Room;
    match b
    case Gross => RoomCaps(k.gross + r.gross, k.grossLimit, p.price.value);
    case Heat => RoomCaps(k.heat + r.heat, k.heatLimit, p.stopDistance.value);
    case Sector(s) => RoomCaps(k.sector(s) + b.Used(r), k.sectorLimit, p.price.value);
    case Allocation(s) => RoomCaps(k.deployed(s) + b.Used(r), k.allocation, p.price.value);
    case Cash =>
      RoomCaps(r.cash, k.cash, p.price.value * CASH_BUFFER);
      var a := CapFor(k, b).evaluate(p, r);
      if a.verdict.Resize? {
        BufferCosts(p.price.value, a.verdict.maxQty);
      }
  }

  /** What one share costs a budget's check: cash is asked with its buffer. */
  function CostOf(b: Budget, p: Proposal): real
    requires p.price.Some? && b.Spends(p)
  {
    match b
    case Heat => p.stopDistance.value
    case Cash => p.price.value * CASH_BUFFER
    case _ => p.price.value
  }

  /**
   No own check asks for more than its limit: with room left it caps to the most shares that fit into
   it, and blocks exactly when there is none; without a price, or for an opening sale where cash is
   concerned, it says nothing.
   */
  lemma OwnCheckExactly(k: Exposure, b: Budget, p: Proposal, r: Reserved)
    requires b.Spends(p) && p.price.Some? && (b == Cash ==> p.side == Buy)
    ensures
      var a, left := CapFor(k, b).evaluate(p, r), RoomFor(k, b) - b.Used(r);
      && (left <= 0.0 <==> a == Says(Block))
      && (0.0 < left ==>
            && a.Says? && a.verdict.Resize?
            && CostOf(b, p) * a.verdict.maxQty as real <= left < CostOf(b, p) * a.verdict.maxQty as real + CostOf(b, p))
  {
    hide Room;
    var cost := CostOf(b, p);
    match b
    case Gross => RoomIsLargest(k.gross + r.gross, k.grossLimit, cost);
    case Heat => RoomIsLargest(k.heat + r.heat, k.heatLimit, cost);
    case Sector(s) => RoomIsLargest(k.sector(s) + b.Used(r), k.sectorLimit, cost);
    case Allocation(s) => RoomIsLargest(k.deployed(s) + b.Used(r), k.allocation, cost);
    case Cash => RoomIsLargest(r.cash, k.cash, cost);
  }

  lemma OwnCheckSilent(k: Exposure, b: Budget, p: Proposal, r: Reserved)
    ensures b != Heat && p.price.None? ==> CapFor(k, b).evaluate(p, r) == Silent
    ensures b == Cash && p.side == Sell ==> CapFor(k, b).evaluate(p, r) == Silent
    ensures b == Heat && !b.Spends(p) ==> CapFor(k, b).evaluate(p, r) == Silent
    ensures p.kind in CapFor(k, b).applies <==> p.Opening()
  {
    OpeningKinds(p);
    hide Room;
  }

  /** And what one trade may lose: with a stop on its losing side, the most shares within the budget. */
  lemma RiskCheckExactly(k: Exposure, p: Proposal, r: Reserved)
    requires p.stopDistance.Some? && 0.0 < p.stopDistance.value && 0.0 < k.riskBudget(p)
    ensures
      var a, d := RiskCheck(k).evaluate(p, r), p.stopDistance.value;
      && a.Says? && a.verdict.Resize?
      && d * a.verdict.maxQty as real <= k.riskBudget(p) < d * a.verdict.maxQty as real + d
  {
    WholeUnits(k.riskBudget(p), p.stopDistance.value);
    assert 0.0 <= k.riskBudget(p) / p.stopDistance.value;
  }

  lemma BufferCosts(price: Price, n: nat)
    ensures price * n as real <= price * CASH_BUFFER * n as real
  {
    assert price * CASH_BUFFER * n as real - price * n as real == price * n as real * 0.0065;
  }

  /** The checks without a budget block exactly what they are for and say nothing else. */
  lemma GuardsExactly(k: Exposure, p: Proposal, r: Reserved)
    ensures StaleCheck(k).evaluate(p, r) == if p.price.None? || k.stale(p) then Says(Block) else Silent
    ensures ShortCheck(k).evaluate(p, r) == if p.side == Sell && !k.allowShort then Says(Block) else Silent
    ensures StopSideCheck().evaluate(p, r) == if p.stopDistance.Some? && p.stopDistance.value <= 0.0 then Says(Block) else Silent
    ensures p.stopDistance.None? <==> RiskCheck(k).evaluate(p, r) == Says(Block)
    ensures p.Opening() ==> forall c | c in [StaleCheck(k), ShortCheck(k), StopSideCheck(), RiskCheck(k)] :: p.kind in c.applies
    ensures !p.Opening() ==> forall c | c in [StaleCheck(k), ShortCheck(k), StopSideCheck(), RiskCheck(k)] :: p.kind !in c.applies
  {
    OpeningKinds(p);
  }

  lemma StaleBlocksUnpriced(k: Exposure)
    ensures BlocksUnpriced(StaleCheck(k))
  {
    forall p: Proposal | p.Opening() ensures p.kind in StaleCheck(k).applies {
      OpeningKinds(p);
    }
  }

  /** The check that forbids shorts keeps any budget from an opening sale. */
  lemma ShortCheckCaps(k: Exposure, b: Budget, room: real, p: Proposal)
    requires p.side == Sell && !k.allowShort
    ensures Caps(ShortCheck(k), b, room, p)
  {
    OpeningKinds(p);
  }

  /** Whether the cash check is asked about the order at all, or another check blocks it. */
  predicate CashAsked(k: Exposure, p: Proposal) { !p.Opening() || p.side == Buy || !k.allowShort }

  /**
   The engine's own list, with any other checks beside them in any order: what a batch is approved
   for, on top of what is already held, stays within the gross, heat, sector, allocation and cash
   limits (cash as long as no opening sale is allowed), and no approved opening is without a price.
   */
  lemma OwnBatchWithinLimits(checks: seq<Check>, k: Exposure, b: Budget, ps: seq<Proposal>, i: nat)
    requires StaleCheck(k) in checks && CapFor(k, b) in checks && ShortCheck(k) in checks && i < |ps|
    requires b == Cash ==> forall p | p in ps :: CashAsked(k, p)
    ensures Spent(b, ps, Batch(checks, ps).0) <= RealMax(0.0, RoomFor(k, b))
    ensures ps[i].Opening() && 0 < Batch(checks, ps).0[i] ==> ps[i].price.Some?
  {
    hide Caps, CapFor, RoomFor, BlocksUnpriced, StaleCheck, Batch, Spent, ShortCheck;
    var stale :| 0 <= stale < |checks| && checks[stale] == StaleCheck(k);
    StaleBlocksUnpriced(k);
    forall p | p in ps && b.Spends(p) ensures Capped(checks, b, RoomFor(k, b), p) {
      OwnListCaps(checks, k, b, p);
    }
    BatchSpendsWithinLimit(checks, stale, b, RoomFor(k, b), ps, i);
  }

  lemma OwnListCaps(checks: seq<Check>, k: Exposure, b: Budget, p: Proposal)
    requires CapFor(k, b) in checks && ShortCheck(k) in checks && b.Spends(p) && (b == Cash ==> CashAsked(k, p))
    ensures Capped(checks, b, RoomFor(k, b), p)
  {
    hide CapFor, RoomFor, ShortCheck;
    var cap :| 0 <= cap < |checks| && checks[cap] == CapFor(k, b);
    var short :| 0 <= short < |checks| && checks[short] == ShortCheck(k);
    if !p.Opening() {
      assert Caps(checks[cap], b, RoomFor(k, b), p);
    } else {
      hide Caps;
      if b == Cash && p.side == Sell {
        ShortCheckCaps(k, b, RoomFor(k, b), p);
        assert Caps(checks[short], b, RoomFor(k, b), p);
      } else {
        OwnCheckCaps(k, b, p);
        assert Caps(checks[cap], b, RoomFor(k, b), p);
      }
    }
  }

  /** Where shorts are allowed, an opening sale is reserved against cash that no check asked about. */
  lemma ShortsEscapeCash(k: Exposure, p: Proposal)
    requires k.allowShort && !k.stale(p) && k.cash == 0.0
    requires p == Proposal(OpenRisk, Sell, p.instrument, p.strategy, p.sector, 1, Some(1), Some(1.0), None)
    ensures
      var checks := [StaleCheck(k), CashCheck(k), ShortCheck(k)];
      Batch(checks, [p]).0 == [1] && RoomFor(k, Cash) < Spent(Cash, [p], Batch(checks, [p]).0)
  {
    var checks := [StaleCheck(k), CashCheck(k), ShortCheck(k)];
    assert checks[..2] == [StaleCheck(k), CashCheck(k)] && checks[..2][..1] == [StaleCheck(k)] && checks[..1][..0] == [];
    assert Verdicts(checks[..1], p, NOTHING_RESERVED) == [];
    assert Verdicts(checks[..2], p, NOTHING_RESERVED) == [];
    assert Verdicts(checks, p, NOTHING_RESERVED) == [];
    assert [p][..0] == [] && Batch(checks, [p]).0 == [1];
    assert [1][..0] == [];
    assert Spent(Cash, [p], [1]) == Adds(Cash, p, 1) == 1.0;
  }

  /** The two stop checks together let no opening through without a stop on its losing side. */
  lemma StopNeeded(checks: seq<Check>, k: Exposure, p: Proposal, r: Reserved)
    requires RiskCheck(k) in checks && StopSideCheck() in checks && p.Opening()
    requires p.stopDistance.None? || p.stopDistance.value <= 0.0
    ensures Evaluate(checks, p, r) == 0
  {
    OpeningKinds(p);
    var risk :| 0 <= risk < |checks| && checks[risk] == RiskCheck(k);
    var side :| 0 <= side < |checks| && checks[side] == StopSideCheck();
    var i := if p.stopDistance.None? then risk else side;
    assert checks[i].evaluate(p, r) == Says(Block) && p.kind in checks[i].applies;
    assert VerdictsOf(checks[i], p, r) == [Block];
    assert VerdictsOf(checks[i], p, r)[0] == Block;
    VerdictsInclude(checks, i, p, r);
  }

  /**
   So heat is never offset: with the engine's stop checks in the list every approved opening of a
   batch has a positive stop distance, each takes heat of its own, and all of it together is within
   the limit.
   */
  lemma {:induction false} HeatNotOffset(checks: seq<Check>, k: Exposure, ps: seq<Proposal>, i: nat)
    requires RiskCheck(k) in checks && StopSideCheck() in checks && i < |ps|
    ensures ps[i].Opening() && 0 < Batch(checks, ps).0[i] ==> ps[i].stopDistance.Some? && 0.0 < ps[i].stopDistance.value
    ensures 0.0 <= Adds(Heat, ps[i], Batch(checks, ps).0[i]) <= Spent(Heat, ps, Batch(checks, ps).0)
  {
    hide Evaluate, Reserve, RiskCheck, StopSideCheck;
    var init, p := ps[..|ps| - 1], ps[|ps| - 1];
    var (sizes, r) := Batch(checks, init);
    assert Batch(checks, ps).0[..|init|] == sizes;
    var n := Evaluate(checks, p, r);
    if p.Opening() && (p.stopDistance.None? || p.stopDistance.value <= 0.0) {
      StopNeeded(checks, k, p, r);
    }
    if init != [] {
      HeatNotOffset(checks, k, init, if i < |init| then i else 0);
    }
  }

  // ---- The engine's loops -----------------------------------------------------------------------------

  class Reservations {
    var reserved: Reserved

    constructor ()
      ensures reserved == NOTHING_RESERVED
    {
      reserved := NOTHING_RESERVED;
    }

    method Add(p: Proposal, quantity: nat, counted: bool := true)
      modifies this
      ensures reserved == Reserve(old(reserved), p, quantity, counted)
    {
      hide Bump, Notional;
      if counted {
        reserved := reserved.(orders := reserved.orders + 1);
      }
      if !p.Opening() || p.price.None? {
        return;
      }
      var notional := Notional(p, quantity);
      reserved := reserved.(symbols := reserved.symbols + {p.instrument}, gross := reserved.gross + notional,
                            cash := reserved.cash + notional);
      if counted {
        reserved := reserved.(entries := reserved.entries + 1);
      }
      var heat := 0.0;
      if p.stopDistance.Some? {
        heat := p.stopDistance.value * quantity as real;
      }
      reserved := reserved.(heat := reserved.heat + heat);
      reserved := reserved.(bySector := Bump(reserved.bySector, p.sector, notional),
                            byStrategy := Bump(reserved.byStrategy, p.strategy, notional));
    }
  }

  method EvaluateOne(checks: seq<Check>, p: Proposal, reserved: Reserved) returns (approved: nat)
    ensures approved == Evaluate(checks, p, reserved)
  {
    var results: seq<Verdict> := [];
    for i := 0 to |checks|
      invariant results == Verdicts(checks[..i], p, reserved)
    {
      assert checks[..i + 1][..i] == checks[..i];
      if p.kind in checks[i].applies {
        match checks[i].evaluate(p, reserved) {
          case Silent =>
          case Says(v) => results := results + [v];
          case Raises => results := results + [if p.Opening() then Block else Allow];
        }
      }
    }
    assert checks[..|checks|] == checks;
    return Approved(results, p);
  }

  method EvaluateBatch(checks: seq<Check>, ps: seq<Proposal>) returns (sizes: seq<nat>, reserved: Reserved)
    ensures (sizes, reserved) == Batch(checks, ps)
  {
    hide Evaluate, Reserve;
    var held := new Reservations();
    sizes := [];
    for i := 0 to |ps|
      invariant (sizes, held.reserved) == Batch(checks, ps[..i])
      invariant fresh(held)
    {
      assert ps[..i + 1][..i] == ps[..i];
      var n := EvaluateOne(checks, ps[i], held.reserved);
      if 0 < n {
        held.Add(ps[i], n);
      }
      sizes := sizes + [n];
    }
    assert ps[..|ps|] == ps;
    reserved := held.reserved;
  }
}

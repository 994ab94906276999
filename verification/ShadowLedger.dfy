/**
 The shadow ledger of src/evaluation/shadow_ledger.py: a counterfactual trade for every signal, opened,
 closed and alpha-settled at most once each, in that order.
 */
module ShadowLedger {
  import opened Domain

  // ---- State --------------------------------------------------------------------------------------------

  datatype Signal = Signal(id: string, instrument: string, side: Side, at: int)

  datatype Waiting = Waiting(id: string, instrument: string, decidedAt: int, atr: real)

  datatype Trade = Trade(
    id: string, instrument: string, decidedAt: int, entryTs: int, entryPrice: real, quantity: int,
    stop: real, target: real, atr: real, highestClose: real, enteredOn: int, timeExit: bool)

  datatype Settling = Settling(id: string, entryDate: int, exitDate: int)

  datatype Event =
    | Opened(id: string, decidedAt: int, entryTs: int)
    | Closed(id: string, decidedAt: int, entryTs: int, exitTs: int)
    | AlphaSettled(id: string)

  datatype Ledger = Ledger(
    seen: set<string>, pending: seq<Waiting>, trades: seq<Trade>, settling: seq<Settling>, events: seq<Event>)

  const EMPTY := Ledger({}, [], [], [], [])

  datatype Policy = Policy(
    kStop: real, kTarget: real, kTrail: Option<real>, maxHold: int, notional: real, dayOf: int -> int)

  function Drop<T>(s: seq<T>, i: nat): seq<T>
    requires i < |s|
  {
    s[..i] + s[i + 1..]
  }

  // ---- What the loops do to one item ----------------------------------------------------------------------

  datatype Item =
    | Track(signal: Signal, atr: Option<real>)
    | Open(i: nat, price: Price, ts: int)
    | Close(i: nat, price: Price, ts: int)
    | TimeOut(i: nat)
    | Trail(i: nat, close: Option<real>, atr: Option<real>)
    | Settle(i: nat)

  predicate Due(t: Trade, price: real, ts: int) {
    t.entryTs < ts && (t.timeExit || price <= t.stop || t.target <= price)
  }

  function NewTrade(policy: Policy, p: Waiting, price: Price, ts: int): Trade {
    Trade(p.id, p.instrument, p.decidedAt, ts, price, (policy.notional / price).Floor,
          price - policy.kStop * p.atr, price + policy.kTarget * p.atr, p.atr, price, policy.dayOf(ts), false)
  }

  function Trailed(policy: Policy, t: Trade, close: Option<real>, atr: Option<real>): Trade {
    var high := if close.Some? && t.highestClose < close.value then close.value else t.highestClose;
    if policy.kTrail.None? then t.(highestClose := high)
    else
      var trail := high - policy.kTrail.value * (if atr.Some? then atr.value else t.atr);
      t.(highestClose := high, stop := if t.stop < trail then trail else t.stop)
  }

  /** One item's turn; unchanged where the loop body would skip it. */
  function Do(policy: Policy, s: Ledger, item: Item): Ledger {
    match item
    case Track(signal, atr) =>
      if signal.id in s.seen || signal.side != Buy || atr.None? || atr.value <= 0.0 then s
      else s.(seen := s.seen + {signal.id},
              pending := s.pending + [Waiting(signal.id, signal.instrument, signal.at, atr.value)])
    case Open(i, price, ts) =>
      if |s.pending| <= i || ts <= s.pending[i].decidedAt then s
      else
        var p := s.pending[i];
        var t := NewTrade(policy, p, price, ts);
        var s1 := s.(pending := Drop(s.pending, i));
        if t.quantity < 1 then s1      // the notional does not buy one share: never opened
        else s1.(trades := s.trades + [t], events := s.events + [Opened(p.id, p.decidedAt, ts)])
    case Close(i, price, ts) =>
      if |s.trades| <= i || !Due(s.trades[i], price, ts) then s
      else
        var t := s.trades[i];
        s.(trades := Drop(s.trades, i),
           settling := s.settling + [Settling(t.id, t.enteredOn, policy.dayOf(ts))],
           events := s.events + [Closed(t.id, t.decidedAt, t.entryTs, ts)])
    case TimeOut(i) =>
      if |s.trades| <= i then s else s.(trades := s.trades[i := s.trades[i].(timeExit := true)])
    case Trail(i, close, atr) =>
      if |s.trades| <= i then s else s.(trades := s.trades[i := Trailed(policy, s.trades[i], close, atr)])
    case Settle(i) =>
      if |s.settling| <= i then s
      else s.(settling := Drop(s.settling, i), events := s.events + [AlphaSettled(s.settling[i].id)])
  }

  function DoAll(policy: Policy, s: Ledger, items: seq<Item>): Ledger {
    if items == [] then s else Do(policy, DoAll(policy, s, items[..|items| - 1]), items[|items| - 1])
  }

  // ---- The life cycle ---------------------------------------------------------------------------------------

  function PendingIds(s: Ledger): multiset<string> { multiset(seq(|s.pending|, i requires 0 <= i < |s.pending| => s.pending[i].id)) }

  function TradeIds(s: Ledger): multiset<string> { multiset(seq(|s.trades|, i requires 0 <= i < |s.trades| => s.trades[i].id)) }

  function SettlingIds(s: Ledger): multiset<string> {
    multiset(seq(|s.settling|, i requires 0 <= i < |s.settling| => s.settling[i].id))
  }

  /** How often a signal has been opened, closed and settled. */
  datatype Counts = Counts(opens: nat, closes: nat, settles: nat)

  function Tally(events: seq<Event>, id: string): Counts {
    if events == [] then Counts(0, 0, 0) else
      var t, e := Tally(events[..|events| - 1], id), events[|events| - 1];
      if e.id != id then t
      else
        match e
        case Opened(_, _, _) => t.(opens := t.opens + 1)
        case Closed(_, _, _, _) => t.(closes := t.closes + 1)
        case AlphaSettled(_) => t.(settles := t.settles + 1)
  }

  /** A signal is in at most one place, and its events are those of that place. */
  ghost predicate LifeOf(s: Ledger, id: string) {
    var p, t, g, n := PendingIds(s)[id], TradeIds(s)[id], SettlingIds(s)[id], Tally(s.events, id);
    && p + t + g <= 1
    && (p + t + g == 1 ==> id in s.seen)
    && (p == 1 ==> n == Counts(0, 0, 0))
    && (t == 1 ==> n == Counts(1, 0, 0))
    && (g == 1 ==> n == Counts(1, 1, 0))
    && (p + t + g == 0 ==> n == Counts(0, 0, 0) || (n == Counts(1, 1, 1) && id in s.seen))
  }

  ghost predicate Timely(e: Event) {
    match e
    case Opened(_, decided, entry) => decided < entry
    case Closed(_, decided, entry, exit) => decided < entry < exit
    case _ => true
  }

  ghost predicate Life(s: Ledger) {
    && (forall id: string :: LifeOf(s, id))
    && (forall e | e in s.events :: Timely(e))
    && (forall t | t in s.trades :: t.decidedAt < t.entryTs && 1 <= t.quantity)
  }

  lemma DropBag(s: seq<string>, i: nat)
    requires i < |s|
    ensures multiset(Drop(s, i)) == multiset(s) - multiset{s[i]}
    ensures 1 <= multiset(s)[s[i]]
  {
    assert s == s[..i] + [s[i]] + s[i + 1..];
  }

  lemma TallyAdd(events: seq<Event>, e: Event, id: string)
    ensures
      var t := Tally(events, id);
      Tally(events + [e], id) ==
        if e.id != id then t
        else if e.Opened? then t.(opens := t.opens + 1)
        else if e.Closed? then t.(closes := t.closes + 1)
        else t.(settles := t.settles + 1)
  {
    assert (events + [e])[..|events|] == events;
  }

  lemma TrackLife(policy: Policy, s: Ledger, item: Item)
    requires Life(s) && item.Track?
    ensures Life(Do(policy, s, item))
  {
    var s', id := Do(policy, s, item), item.signal.id;
    hide Tally;
    if s' != s {
      var ids := seq(|s.pending|, i requires 0 <= i < |s.pending| => s.pending[i].id);
      var ids' := seq(|s'.pending|, i requires 0 <= i < |s'.pending| => s'.pending[i].id);
      assert ids' == ids + [id];
      forall x: string ensures LifeOf(s', x) {
        assert LifeOf(s, x);
      }
    }
  }

  /** Leaving the queue, whatever happens next. */
  lemma DequeueLife(s: Ledger, i: nat)
    requires Life(s) && i < |s.pending|
    ensures
      var s1, id := s.(pending := Drop(s.pending, i)), s.pending[i].id;
      && Life(s1) && id in s.seen && Tally(s1.events, id) == Counts(0, 0, 0)
      && PendingIds(s1)[id] == TradeIds(s1)[id] == SettlingIds(s1)[id] == 0
  {
    hide Tally;
    var s1, id := s.(pending := Drop(s.pending, i)), s.pending[i].id;
    var ids := seq(|s.pending|, k requires 0 <= k < |s.pending| => s.pending[k].id);
    var ids' := seq(|s1.pending|, k requires 0 <= k < |s1.pending| => s1.pending[k].id);
    assert ids' == Drop(ids, i);
    DropBag(ids, i);
    assert LifeOf(s, id);
    forall x: string ensures LifeOf(s1, x) {
      assert LifeOf(s, x);
    }
  }

  lemma StartTradeLife(s: Ledger, t: Trade)
    requires Life(s) && t.id in s.seen && Tally(s.events, t.id) == Counts(0, 0, 0)
    requires PendingIds(s)[t.id] == TradeIds(s)[t.id] == SettlingIds(s)[t.id] == 0
    requires t.decidedAt < t.entryTs && 1 <= t.quantity
    ensures Life(s.(trades := s.trades + [t], events := s.events + [Opened(t.id, t.decidedAt, t.entryTs)]))
  {
    hide Tally;
    var s' := s.(trades := s.trades + [t], events := s.events + [Opened(t.id, t.decidedAt, t.entryTs)]);
    var ids := seq(|s.trades|, k requires 0 <= k < |s.trades| => s.trades[k].id);
    var ids' := seq(|s'.trades|, k requires 0 <= k < |s'.trades| => s'.trades[k].id);
    assert ids' == ids + [t.id];
    forall x: string ensures LifeOf(s', x) {
      assert LifeOf(s, x);
      TallyAdd(s.events, Opened(t.id, t.decidedAt, t.entryTs), x);
    }
  }

  lemma OpenLife(policy: Policy, s: Ledger, item: Item)
    requires Life(s) && item.Open?
    ensures Life(Do(policy, s, item))
  {
    hide Life, PendingIds, TradeIds, SettlingIds, Tally;
    if item.i < |s.pending| && s.pending[item.i].decidedAt < item.ts {
      DequeueLife(s, item.i);
      var t := NewTrade(policy, s.pending[item.i], item.price, item.ts);
      if 1 <= t.quantity {
        StartTradeLife(s.(pending := Drop(s.pending, item.i)), t);
      }
    }
  }

  lemma EndTradeLife(s: Ledger, i: nat, exitDate: int, ts: int)
    requires Life(s) && i < |s.trades| && s.trades[i].entryTs < ts
    ensures
      var t := s.trades[i];
      Life(s.(trades := Drop(s.trades, i), settling := s.settling + [Settling(t.id, t.enteredOn, exitDate)],
              events := s.events + [Closed(t.id, t.decidedAt, t.entryTs, ts)]))
  {
    hide Tally;
    var t := s.trades[i];
    var s' := s.(trades := Drop(s.trades, i), settling := s.settling + [Settling(t.id, t.enteredOn, exitDate)],
                 events := s.events + [Closed(t.id, t.decidedAt, t.entryTs, ts)]);
    var ids := seq(|s.trades|, k requires 0 <= k < |s.trades| => s.trades[k].id);
    var ids' := seq(|s'.trades|, k requires 0 <= k < |s'.trades| => s'.trades[k].id);
    assert ids' == Drop(ids, i);
    DropBag(ids, i);
    var gone := seq(|s.settling|, k requires 0 <= k < |s.settling| => s.settling[k].id);
    var gone' := seq(|s'.settling|, k requires 0 <= k < |s'.settling| => s'.settling[k].id);
    assert gone' == gone + [t.id];
    assert t in s.trades;
    forall x: string ensures LifeOf(s', x) {
      assert LifeOf(s, x) && LifeOf(s, t.id);
      TallyAdd(s.events, Closed(t.id, t.decidedAt, t.entryTs, ts), x);
    }
  }

  lemma CloseLife(policy: Policy, s: Ledger, item: Item)
    requires Life(s) && item.Close?
    ensures Life(Do(policy, s, item))
  {
    hide Life;
    if item.i < |s.trades| && Due(s.trades[item.i], item.price, item.ts) {
      EndTradeLife(s, item.i, policy.dayOf(item.ts), item.ts);
    }
  }

  lemma SettleLife(policy: Policy, s: Ledger, item: Item)
    requires Life(s) && item.Settle?
    ensures Life(Do(policy, s, item))
  {
    var s' := Do(policy, s, item);
    hide Tally;
    if item.i < |s.settling| {
      var i, g := item.i, s.settling[item.i];
      var ids := seq(|s.settling|, k requires 0 <= k < |s.settling| => s.settling[k].id);
      var ids' := seq(|s'.settling|, k requires 0 <= k < |s'.settling| => s'.settling[k].id);
      assert ids' == Drop(ids, i);
      DropBag(ids, i);
      forall x: string ensures LifeOf(s', x) {
        assert LifeOf(s, x) && LifeOf(s, g.id);
        TallyAdd(s.events, AlphaSettled(g.id), x);
      }
    }
  }

  lemma UpdateLife(policy: Policy, s: Ledger, item: Item)
    requires Life(s) && (item.TimeOut? || item.Trail?)
    ensures Life(Do(policy, s, item))
  {
    var s' := Do(policy, s, item);
    hide Tally;
    var ids := seq(|s.trades|, k requires 0 <= k < |s.trades| => s.trades[k].id);
    var ids' := seq(|s'.trades|, k requires 0 <= k < |s'.trades| => s'.trades[k].id);
    assert ids' == ids;
    forall x: string ensures LifeOf(s', x) {
      assert LifeOf(s, x);
    }
  }

  lemma {:induction false} RunLife(policy: Policy, s: Ledger, items: seq<Item>)
    requires Life(s)
    ensures Life(DoAll(policy, s, items))
  {
    if items != [] {
      hide Do, Life;
      var init, item := DoAll(policy, s, items[..|items| - 1]), items[|items| - 1];
      RunLife(policy, s, items[..|items| - 1]);
      if item.Track? { TrackLife(policy, init, item); }
      else if item.Open? { OpenLife(policy, init, item); }
      else if item.Close? { CloseLife(policy, init, item); }
      else if item.Settle? { SettleLife(policy, init, item); }
      else { UpdateLife(policy, init, item); }
    }
  }

  /**
   Over any run of the ledger's loops: pending, open and settling are disjoint by signal and within
   `seen`; each signal is opened, closed and settled at most once, never out of order; and decision
   time < entry time < exit time throughout.
   */
  lemma LifeCycle(policy: Policy, items: seq<Item>)
    ensures Life(DoAll(policy, EMPTY, items))
  {
    assert Life(EMPTY) by {
      assert forall id: string :: LifeOf(EMPTY, id);
    }
    RunLife(policy, EMPTY, items);
  }

  /** Never out of order: whenever the ledger is looked at, settled <= closed <= opened <= 1 for every signal. */
  lemma InOrderOnce(policy: Policy, items: seq<Item>, id: string)
    ensures
      var n := Tally(DoAll(policy, EMPTY, items).events, id);
      n.settles <= n.closes <= n.opens <= 1
  {
    LifeCycle(policy, items);
    assert LifeOf(DoAll(policy, EMPTY, items), id);
  }

  // ---- Stops ------------------------------------------------------------------------------------------------

  /** A step leaves an open trade open with no lower a stop, or closes it. */
  lemma StepStop(policy: Policy, s: Ledger, item: Item, t': Trade)
    requires Life(s) && t' in Do(policy, s, item).trades && 1 <= TradeIds(s)[t'.id]
    ensures exists t :: t in s.trades && t.id == t'.id && t.stop <= t'.stop
  {
    hide Tally;
    assert LifeOf(s, t'.id);
    var s' := Do(policy, s, item);
    var k :| 0 <= k < |s'.trades| && s'.trades[k] == t';
    match item
    case Open(i, price, ts) =>
      if i < |s.pending| && |s.trades| < |s'.trades| && k == |s.trades| {
        PendingCounted(s, i);
      } else {
        assert t' in s.trades;
      }
    case TimeOut(i) => if i < |s.trades| && k == i { assert s.trades[i] in s.trades; } else { assert t' in s.trades; }
    case Trail(i, close, atr) => if i < |s.trades| && k == i { assert s.trades[i] in s.trades; } else { assert t' in s.trades; }
    case _ => assert t' in s.trades;
  }

  lemma PendingCounted(s: Ledger, i: nat)
    requires i < |s.pending|
    ensures 1 <= PendingIds(s)[s.pending[i].id]
  {
    var ids := seq(|s.pending|, k requires 0 <= k < |s.pending| => s.pending[k].id);
    assert ids[i] in multiset(ids);
  }

  lemma TradeCounted(s: Ledger, t: Trade)
    requires t in s.trades
    ensures 1 <= TradeIds(s)[t.id]
  {
    var i :| 0 <= i < |s.trades| && s.trades[i] == t;
    var ids := seq(|s.trades|, k requires 0 <= k < |s.trades| => s.trades[k].id);
    assert ids[i] in multiset(ids);
  }

  lemma StepEvents(policy: Policy, s: Ledger, item: Item, id: string)
    ensures Tally(s.events, id).closes <= Tally(Do(policy, s, item).events, id).closes
    ensures Tally(s.events, id).opens <= Tally(Do(policy, s, item).events, id).opens
  {
    hide NewTrade, Trailed, Tally;
    var end := Do(policy, s, item).events;
    if end != s.events {
      assert end == s.events + [end[|s.events|]];
      TallyAdd(s.events, end[|s.events|], id);
    }
  }

  /** What has closed stays closed: the open count of a signal still open never started from a closed one. */
  lemma {:induction false} TallyGrows(policy: Policy, s: Ledger, items: seq<Item>, id: string)
    ensures Tally(s.events, id).closes <= Tally(DoAll(policy, s, items).events, id).closes
    ensures Tally(s.events, id).opens <= Tally(DoAll(policy, s, items).events, id).opens
  {
    if items != [] {
      hide Do, Tally;
      var init := DoAll(policy, s, items[..|items| - 1]);
      TallyGrows(policy, s, items[..|items| - 1], id);
      StepEvents(policy, init, items[|items| - 1], id);
    }
  }

  /** From any reachable ledger, while a trade stays open its stop never falls. */
  lemma {:induction false} StopNeverFalls(policy: Policy, s: Ledger, items: seq<Item>, t: Trade, t': Trade)
    requires Life(s) && t in s.trades && t' in DoAll(policy, s, items).trades && t'.id == t.id
    ensures t.stop <= t'.stop
  {
    hide Do, Tally;
    if items == [] {
      UniqueTrade(s, t, t');
    } else {
      var init, item := DoAll(policy, s, items[..|items| - 1]), items[|items| - 1];
      RunLife(policy, s, items[..|items| - 1]);
      RunLife(policy, s, items);
      TradeCounted(s, t);
      TradeCounted(DoAll(policy, s, items), t');
      assert LifeOf(s, t.id) && LifeOf(DoAll(policy, s, items), t.id) && LifeOf(init, t.id);
      TallyGrows(policy, s, items[..|items| - 1], t.id);
      TallyGrows(policy, init, [item], t.id);
      assert DoAll(policy, init, [item]) == DoAll(policy, s, items) by { assert [item][..0] == []; }
      assert 1 <= TradeIds(init)[t.id];
      StepStop(policy, init, item, t');
      var mid :| mid in init.trades && mid.id == t'.id && mid.stop <= t'.stop;
      StopNeverFalls(policy, s, items[..|items| - 1], t, mid);
    }
  }

  /** A signal has one open trade. */
  lemma UniqueTrade(s: Ledger, a: Trade, b: Trade)
    requires Life(s) && a in s.trades && b in s.trades && a.id == b.id
    ensures a == b
  {
    var i :| 0 <= i < |s.trades| && s.trades[i] == a;
    var j :| 0 <= j < |s.trades| && s.trades[j] == b;
    var ids := seq(|s.trades|, k requires 0 <= k < |s.trades| => s.trades[k].id);
    assert LifeOf(s, a.id);
    hide LifeOf, Life, Tally;
    TwiceCounted(ids, Min(i, j), Max(i, j));
  }

  lemma TwiceCounted(ids: seq<string>, lo: nat, hi: nat)
    requires lo <= hi < |ids| && ids[lo] == ids[hi]
    ensures lo < hi ==> 2 <= multiset(ids)[ids[lo]]
  {
    if lo < hi {
      DropBag(ids, lo);
      assert Drop(ids, lo)[hi - 1] == ids[hi];
      assert ids[hi] in multiset(Drop(ids, lo));
    }
  }

  // ---- What the loops leave alone ----------------------------------------------------------------------------

  /** A signal worth queueing. */
  predicate Qualifies(g: Signal, atr: map<string, real>) { g.side == Buy && g.instrument in atr && 0.0 < atr[g.instrument] }

  /** Only purchases with a known, positive range. */
  lemma QualifiesExactly(g: Signal, atr: map<string, real>)
    ensures !Qualifies(g, atr) <==> g.side == Sell || g.instrument !in atr || atr[g.instrument] <= 0.0
  {
  }

  /** Queued for one of these signals, with its facts. */
  ghost predicate FromSignal(w: Waiting, signals: seq<Signal>, atr: map<string, real>) {
    exists g :: g in signals && Qualifies(g, atr) && w == Waiting(g.id, g.instrument, g.at, atr[g.instrument])
  }

  /** Every id newly seen is in the queue once more than before, and no other. */
  ghost predicate QueuesNew(a: Ledger, b: Ledger) {
    forall id: string :: PendingIds(b)[id] == PendingIds(a)[id] + if id in b.seen - a.seen then 1 else 0
  }

  lemma NoneQueued(s: Ledger)
    ensures QueuesNew(s, s)
  {
  }

  lemma QueuedOnce(start: Ledger, before: Ledger, after: Ledger, g: Signal, atr: map<string, real>)
    requires QueuesNew(start, before) && start.seen <= before.seen
    requires after == before.(seen := after.seen, pending := after.pending)
    requires after.seen == before.seen + if Qualifies(g, atr) then {g.id} else {}
    requires after.pending == before.pending
      + if Qualifies(g, atr) && g.id !in before.seen then [Waiting(g.id, g.instrument, g.at, atr[g.instrument])] else []
    ensures QueuesNew(start, after)
  {
    if Qualifies(g, atr) && g.id !in before.seen {
      QueueAdds(before, after.pending[|before.pending|]);
    } else {
      assert after.pending == before.pending && after.seen - start.seen == before.seen - start.seen;
    }
    assert PendingIds(after) == PendingIds(before.(pending := after.pending));
    hide PendingIds;
  }

  lemma QueueAdds(s: Ledger, w: Waiting)
    ensures PendingIds(s.(pending := s.pending + [w])) == PendingIds(s) + multiset{w.id}
  {
    var s' := s.(pending := s.pending + [w]);
    var ids := seq(|s.pending|, i requires 0 <= i < |s.pending| => s.pending[i].id);
    var ids' := seq(|s'.pending|, i requires 0 <= i < |s'.pending| => s'.pending[i].id);
    assert ids' == ids + [w.id];
  }

  /** A queued item a quote leaves waiting: another instrument's, or decided no earlier. */
  predicate Waits(p: Waiting, instrument: string, ts: int) { p.instrument != instrument || ts <= p.decidedAt }

  /** A trade it leaves open. */
  predicate Stays(t: Trade, instrument: string, price: real, ts: int) { t.instrument != instrument || !Due(t, price, ts) }

  function StillWaiting(ps: seq<Waiting>, instrument: string, ts: int): seq<Waiting> {
    if ps == [] then [] else
      var p := ps[|ps| - 1];
      StillWaiting(ps[..|ps| - 1], instrument, ts) + if Waits(p, instrument, ts) then [p] else []
  }

  /** The trades a quote opens: one for each other item its notional buys a share for. */
  function Starting(policy: Policy, ps: seq<Waiting>, instrument: string, price: Price, ts: int): seq<Trade> {
    if ps == [] then [] else
      var p := ps[|ps| - 1];
      var t := NewTrade(policy, p, price, ts);
      Starting(policy, ps[..|ps| - 1], instrument, price, ts)
        + if Waits(p, instrument, ts) || t.quantity < 1 then [] else [t]
  }

  function StartEvents(trades: seq<Trade>): seq<Event> {
    if trades == [] then [] else
      var t := trades[|trades| - 1];
      StartEvents(trades[..|trades| - 1]) + [Opened(t.id, t.decidedAt, t.entryTs)]
  }

  function StillOpen(trades: seq<Trade>, instrument: string, price: real, ts: int): seq<Trade> {
    if trades == [] then [] else
      var t := trades[|trades| - 1];
      StillOpen(trades[..|trades| - 1], instrument, price, ts) + if Stays(t, instrument, price, ts) then [t] else []
  }

  function Ending(trades: seq<Trade>, instrument: string, price: real, ts: int): seq<Trade> {
    if trades == [] then [] else
      var t := trades[|trades| - 1];
      Ending(trades[..|trades| - 1], instrument, price, ts) + if Stays(t, instrument, price, ts) then [] else [t]
  }

  function EndEvents(trades: seq<Trade>, ts: int): seq<Event> {
    if trades == [] then [] else
      var t := trades[|trades| - 1];
      EndEvents(trades[..|trades| - 1], ts) + [Closed(t.id, t.decidedAt, t.entryTs, ts)]
  }

  function ToSettle(policy: Policy, trades: seq<Trade>, ts: int): seq<Settling> {
    if trades == [] then [] else
      var t := trades[|trades| - 1];
      ToSettle(policy, trades[..|trades| - 1], ts) + [Settling(t.id, t.enteredOn, policy.dayOf(ts))]
  }

  /** What is left of the first n items, and all the others. */
  function WithRest<T>(head: seq<T>, all: seq<T>, n: nat): seq<T>
    requires n <= |all|
  {
    head + all[n..]
  }

  /** The ledger after the quote has gone through the first n queued items. */
  function OpenedTo(policy: Policy, s: Ledger, instrument: string, price: Price, ts: int, n: nat): Ledger
    requires n <= |s.pending|
  {
    var started := Starting(policy, s.pending[..n], instrument, price, ts);
    s.(pending := WithRest(StillWaiting(s.pending[..n], instrument, ts), s.pending, n),
       trades := s.trades + started, events := s.events + StartEvents(started))
  }

  /** And through the first n open trades. */
  function ClosedTo(policy: Policy, s: Ledger, instrument: string, price: Price, ts: int, n: nat): Ledger
    requires n <= |s.trades|
  {
    var ended := Ending(s.trades[..n], instrument, price, ts);
    s.(trades := WithRest(StillOpen(s.trades[..n], instrument, price, ts), s.trades, n),
       settling := s.settling + ToSettle(policy, ended, ts), events := s.events + EndEvents(ended, ts))
  }

  lemma NextWaiting(policy: Policy, ps: seq<Waiting>, instrument: string, price: Price, ts: int, n: nat)
    requires n < |ps|
    ensures
      var p, t := ps[n], NewTrade(policy, ps[n], price, ts);
      var waits := Waits(p, instrument, ts);
      && StillWaiting(ps[..n + 1], instrument, ts) == StillWaiting(ps[..n], instrument, ts) + (if waits then [p] else [])
      && Starting(policy, ps[..n + 1], instrument, price, ts) ==
           Starting(policy, ps[..n], instrument, price, ts) + (if waits || t.quantity < 1 then [] else [t])
  {
    hide NewTrade, Waits;
    assert ps[..n + 1][..n] == ps[..n];
  }

  lemma NextOpen(trades: seq<Trade>, instrument: string, price: Price, ts: int, n: nat)
    requires n < |trades|
    ensures
      var t, stays := trades[n], Stays(trades[n], instrument, price, ts);
      && StillOpen(trades[..n + 1], instrument, price, ts) == StillOpen(trades[..n], instrument, price, ts) + (if stays then [t] else [])
      && Ending(trades[..n + 1], instrument, price, ts) == Ending(trades[..n], instrument, price, ts) + (if stays then [] else [t])
  {
    hide Stays;
    assert trades[..n + 1][..n] == trades[..n];
  }

  /** Taking the next item out, or leaving it in. */
  lemma NextItem<T>(head: seq<T>, all: seq<T>, n: nat)
    requires n < |all|
    ensures WithRest(head + [all[n]], all, n + 1) == WithRest(head, all, n)
    ensures |head| < |WithRest(head, all, n)| && WithRest(head, all, n)[|head|] == all[n]
    ensures Drop(WithRest(head, all, n), |head|) == WithRest(head, all, n + 1)
  {
  }

  lemma NoItem<T>(all: seq<T>)
    ensures WithRest([], all, 0) == all
  {
  }

  lemma Regroup<T>(a: seq<T>, b: seq<T>, x: T)
    ensures a + (b + [x]) == a + b + [x]
  {
  }

  lemma OpenTurn(policy: Policy, s: Ledger, instrument: string, price: Price, ts: int, n: nat)
    requires n < |s.pending|
    ensures
      var at, next := OpenedTo(policy, s, instrument, price, ts, n), OpenedTo(policy, s, instrument, price, ts, n + 1);
      var i := |StillWaiting(s.pending[..n], instrument, ts)|;
      && i < |at.pending| && at.pending[i] == s.pending[n]
      && next == (if Waits(s.pending[n], instrument, ts) then at else Do(policy, at, Open(i, price, ts)))
      && |StillWaiting(s.pending[..n + 1], instrument, ts)| == if Waits(s.pending[n], instrument, ts) then i + 1 else i
  {
    OpenedNext(policy, s, instrument, price, ts, n);
    NewTradeIs(policy, s.pending[n], price, ts);
    hide NewTrade, StillWaiting, OpenedTo, Drop;
  }

  lemma OpenedNext(policy: Policy, s: Ledger, instrument: string, price: Price, ts: int, n: nat)
    requires n < |s.pending|
    ensures
      var at, next := OpenedTo(policy, s, instrument, price, ts, n), OpenedTo(policy, s, instrument, price, ts, n + 1);
      var i, p, t := |StillWaiting(s.pending[..n], instrument, ts)|, s.pending[n], NewTrade(policy, s.pending[n], price, ts);
      && i < |at.pending| && at.pending[i] == p
      && (Waits(p, instrument, ts) ==> next == at && |StillWaiting(s.pending[..n + 1], instrument, ts)| == i + 1)
      && (!Waits(p, instrument, ts) ==>
            && |StillWaiting(s.pending[..n + 1], instrument, ts)| == i
            && (t.quantity < 1 ==> next == at.(pending := Drop(at.pending, i)))
            && (1 <= t.quantity ==>
                  next == at.(pending := Drop(at.pending, i), trades := at.trades + [t],
                              events := at.events + [Opened(t.id, t.decidedAt, t.entryTs)])))
  {
    hide Waits, NewTrade;
    NextWaiting(policy, s.pending, instrument, price, ts, n);
    var waiting, p := StillWaiting(s.pending[..n], instrument, ts), s.pending[n];
    var started, t := Starting(policy, s.pending[..n], instrument, price, ts), NewTrade(policy, p, price, ts);
    NextItem(waiting, s.pending, n);
    StartEventsAdd(started, t);
    hide StillWaiting, Starting, StartEvents, Drop, WithRest;
    assert started + [] == started && waiting + [] == waiting;
    Regroup(s.trades, started, t);
    Regroup(s.events, StartEvents(started), Opened(t.id, t.decidedAt, t.entryTs));
  }

  /**
   The trade an item opens: at the quote's price and time, with the shares the notional pays for and no
   more, its stop and target a policy's distance below and above, and its own signal's facts.
   */
  lemma NewTradeFacts(policy: Policy, p: Waiting, price: Price, ts: int)
    ensures
      var t := NewTrade(policy, p, price, ts);
      && t.id == p.id && t.instrument == p.instrument && t.decidedAt == p.decidedAt && t.atr == p.atr
      && t.entryTs == ts && t.entryPrice == price && t.highestClose == price && t.enteredOn == policy.dayOf(ts) && !t.timeExit
      && price - t.stop == policy.kStop * p.atr && t.target - price == policy.kTarget * p.atr
      && t.quantity as real * price <= policy.notional < t.quantity as real * price + price
  {
    WholeUnits(policy.notional, price);
  }

  /** What a session start trails: the highest close seen, and a stop raised to the trailing distance below it, or kept. */
  lemma TrailedIs(policy: Policy, t: Trade, close: Option<real>, atr: Option<real>)
    ensures
      var u := Trailed(policy, t, close, atr);
      && u == t.(highestClose := u.highestClose, stop := u.stop)
      && t.highestClose <= u.highestClose && (close.Some? ==> close.value <= u.highestClose)
      && (u.highestClose == t.highestClose || close == Some(u.highestClose))
      && (policy.kTrail.None? ==> u.stop == t.stop)
      && (policy.kTrail.Some? ==>
            var trail := u.highestClose - policy.kTrail.value * (if atr.Some? then atr.value else t.atr);
            t.stop <= u.stop && trail <= u.stop && (u.stop == t.stop || u.stop == trail))
  {
  }

  lemma StartEventsAdd(trades: seq<Trade>, t: Trade)
    ensures StartEvents(trades + [t]) == StartEvents(trades) + [Opened(t.id, t.decidedAt, t.entryTs)]
  {
    assert (trades + [t])[..|trades|] == trades;
  }

  lemma EndEventsAdd(policy: Policy, trades: seq<Trade>, t: Trade, ts: int)
    ensures EndEvents(trades + [t], ts) == EndEvents(trades, ts) + [Closed(t.id, t.decidedAt, t.entryTs, ts)]
    ensures ToSettle(policy, trades + [t], ts) == ToSettle(policy, trades, ts) + [Settling(t.id, t.enteredOn, policy.dayOf(ts))]
  {
    assert (trades + [t])[..|trades|] == trades;
  }

  lemma NewTradeIs(policy: Policy, p: Waiting, price: Price, ts: int)
    ensures var t := NewTrade(policy, p, price, ts); t.id == p.id && t.decidedAt == p.decidedAt && t.entryTs == ts
  {
  }

  lemma CloseTurn(policy: Policy, s: Ledger, instrument: string, price: Price, ts: int, n: nat)
    requires n < |s.trades|
    ensures
      var at, next := ClosedTo(policy, s, instrument, price, ts, n), ClosedTo(policy, s, instrument, price, ts, n + 1);
      var i := |StillOpen(s.trades[..n], instrument, price, ts)|;
      && i < |at.trades| && at.trades[i] == s.trades[n]
      && next == (if Stays(s.trades[n], instrument, price, ts) then at else Do(policy, at, Close(i, price, ts)))
      && |StillOpen(s.trades[..n + 1], instrument, price, ts)| == if Stays(s.trades[n], instrument, price, ts) then i + 1 else i
  {
    var at, next := ClosedTo(policy, s, instrument, price, ts, n), ClosedTo(policy, s, instrument, price, ts, n + 1);
    ClosedNext(policy, s, instrument, price, ts, n);
    hide StillOpen, ClosedTo, Drop;
    var i := |StillOpen(s.trades[..n], instrument, price, ts)|;
    assert !Stays(s.trades[n], instrument, price, ts) ==> Due(at.trades[i], price, ts);
    hide Due;
  }

  lemma ClosedNext(policy: Policy, s: Ledger, instrument: string, price: Price, ts: int, n: nat)
    requires n < |s.trades|
    ensures
      var at, next := ClosedTo(policy, s, instrument, price, ts, n), ClosedTo(policy, s, instrument, price, ts, n + 1);
      var i, t := |StillOpen(s.trades[..n], instrument, price, ts)|, s.trades[n];
      && i < |at.trades| && at.trades[i] == t
      && (Stays(t, instrument, price, ts) ==> next == at && |StillOpen(s.trades[..n + 1], instrument, price, ts)| == i + 1)
      && (!Stays(t, instrument, price, ts) ==>
            && |StillOpen(s.trades[..n + 1], instrument, price, ts)| == i
            && next == at.(trades := Drop(at.trades, i),
                           settling := at.settling + [Settling(t.id, t.enteredOn, policy.dayOf(ts))],
                           events := at.events + [Closed(t.id, t.decidedAt, t.entryTs, ts)]))
  {
    hide Stays;
    NextOpen(s.trades, instrument, price, ts, n);
    var open, t := StillOpen(s.trades[..n], instrument, price, ts), s.trades[n];
    var ended := Ending(s.trades[..n], instrument, price, ts);
    NextItem(open, s.trades, n);
    EndEventsAdd(policy, ended, t, ts);
    hide StillOpen, Ending, EndEvents, ToSettle, Drop, WithRest;
    var at, next := ClosedTo(policy, s, instrument, price, ts, n), ClosedTo(policy, s, instrument, price, ts, n + 1);
    assert ended + [] == ended && open + [] == open;
    Regroup(s.events, EndEvents(ended, ts), Closed(t.id, t.decidedAt, t.entryTs, ts));
    Regroup(s.settling, ToSettle(policy, ended, ts), Settling(t.id, t.enteredOn, policy.dayOf(ts)));
  }

  /** What waits to be settled: each ended trade under its own id, from the day it was entered to the day of the quote. */
  lemma {:induction false} SettlingAre(policy: Policy, trades: seq<Trade>, ts: int, i: nat)
    requires i < |trades|
    ensures |ToSettle(policy, trades, ts)| == |trades| == |EndEvents(trades, ts)|
    ensures
      var g, e := ToSettle(policy, trades, ts)[i], EndEvents(trades, ts)[i];
      && g.id == trades[i].id && g.entryDate == trades[i].enteredOn && g.exitDate == policy.dayOf(ts)
      && e.Closed? && e.id == trades[i].id && e.decidedAt == trades[i].decidedAt && e.entryTs == trades[i].entryTs && e.exitTs == ts
  {
    var init := trades[..|trades| - 1];
    if init != [] {
      SettlingAre(policy, init, ts, if i < |init| then i else 0);
    }
  }

  /** What a quote leaves: exactly the items and trades not due, in their order, and what it opened last. */
  lemma {:induction false} WaitingAreThose(ps: seq<Waiting>, instrument: string, ts: int, p: Waiting)
    ensures p in StillWaiting(ps, instrument, ts) <==> p in ps && (p.instrument != instrument || ts <= p.decidedAt)
  {
    if ps != [] {
      WaitingAreThose(ps[..|ps| - 1], instrument, ts, p);
      assert p in ps <==> p in ps[..|ps| - 1] || p == ps[|ps| - 1];
    }
  }

  lemma {:induction false} OpenAreThose(trades: seq<Trade>, instrument: string, price: real, ts: int, t: Trade)
    ensures t in StillOpen(trades, instrument, price, ts) <==> t in trades && t !in Ending(trades, instrument, price, ts)
    ensures t in Ending(trades, instrument, price, ts) <==>
      && t in trades && t.instrument == instrument && t.entryTs < ts
      && (t.timeExit || price <= t.stop || t.target <= price)
  {
    if trades != [] {
      OpenAreThose(trades[..|trades| - 1], instrument, price, ts, t);
      assert t in trades <==> t in trades[..|trades| - 1] || t == trades[|trades| - 1];
    }
  }

  /** Items still waiting for their index closes, and the events of the others. */
  function Unsettled(gs: seq<Settling>, known: Settling -> bool): seq<Settling> {
    if gs == [] then [] else
      var g := gs[|gs| - 1];
      Unsettled(gs[..|gs| - 1], known) + if known(g) then [] else [g]
  }

  function SettleEvents(gs: seq<Settling>, known: Settling -> bool): seq<Event> {
    if gs == [] then [] else
      var g := gs[|gs| - 1];
      SettleEvents(gs[..|gs| - 1], known) + if known(g) then [AlphaSettled(g.id)] else []
  }

  function SettledTo(s: Ledger, known: Settling -> bool, n: nat): Ledger
    requires n <= |s.settling|
  {
    s.(settling := WithRest(Unsettled(s.settling[..n], known), s.settling, n),
       events := s.events + SettleEvents(s.settling[..n], known))
  }

  lemma SettleTurn(policy: Policy, s: Ledger, known: Settling -> bool, n: nat)
    requires n < |s.settling|
    ensures
      var at, next := SettledTo(s, known, n), SettledTo(s, known, n + 1);
      var i := |Unsettled(s.settling[..n], known)|;
      && i < |at.settling| && at.settling[i] == s.settling[n]
      && next == (if known(s.settling[n]) then Do(policy, at, Settle(i)) else at)
      && |Unsettled(s.settling[..n + 1], known)| == if known(s.settling[n]) then i else i + 1
  {
    var at := SettledTo(s, known, n);
    var left, g := Unsettled(s.settling[..n], known), s.settling[n];
    assert s.settling[..n + 1][..n] == s.settling[..n];
    assert Unsettled(s.settling[..n + 1], known) == left + if known(g) then [] else [g];
    assert SettleEvents(s.settling[..n + 1], known) == SettleEvents(s.settling[..n], known) + if known(g) then [AlphaSettled(g.id)] else [];
    NextItem(left, s.settling, n);
    Regroup(s.events, SettleEvents(s.settling[..n], known), AlphaSettled(g.id));
    hide Unsettled, SettleEvents, Drop, WithRest;
    assert left + [] == left && SettleEvents(s.settling[..n], known) + [] == SettleEvents(s.settling[..n], known);
  }

  /** One trade at a session start: due for a time exit, or trailed. */
  function AtSession(policy: Policy, t: Trade, held: int -> int, closes: map<string, real>, atr: map<string, real>): Trade {
    if policy.maxHold <= held(t.enteredOn) then t.(timeExit := true)
    else Trailed(policy, t, if t.instrument in closes then Some(closes[t.instrument]) else None,
                 if t.instrument in atr then Some(atr[t.instrument]) else None)
  }

  /** A session start marks a trade for its time exit exactly from its hold limit on, and then leaves its price alone. */
  lemma AtSessionIs(policy: Policy, t: Trade, held: int -> int, closes: map<string, real>, atr: map<string, real>)
    ensures
      var u := AtSession(policy, t, held, closes, atr);
      && (u.timeExit <==> t.timeExit || policy.maxHold <= held(t.enteredOn))
      && (policy.maxHold <= held(t.enteredOn) ==> u == t.(timeExit := true))
      && (held(t.enteredOn) < policy.maxHold ==>
            && t.stop <= u.stop && t.highestClose <= u.highestClose
            && (t.instrument in closes ==> closes[t.instrument] <= u.highestClose)
            && (t.instrument !in closes ==> u.highestClose == t.highestClose))
  {
  }

  // ---- The mutable ledger -------------------------------------------------------------------------------------

  class Shadow {
    const policy: Policy
    var ledger: Ledger
    ghost var trace: seq<Item>     // every item turn so far

    ghost predicate Valid()
      reads this
    {
      ledger == DoAll(policy, EMPTY, trace)
    }

    constructor (policy: Policy)
      ensures Valid() && ledger == EMPTY && trace == []
    {
      this.policy, ledger, trace := policy, EMPTY, [];
    }

    method Turn(item: Item)
      requires Valid()
      modifies this
      ensures Valid() && trace == old(trace) + [item] && ledger == Do(policy, old(ledger), item)
    {
      ledger := Do(policy, ledger, item);
      trace := trace + [item];
      assert trace[..|trace| - 1] == old(trace);
    }

    /** One more signal. */
    method TrackOne(g: Signal, atr: map<string, real>)
      requires Valid()
      modifies this
      ensures Valid() && old(trace) <= trace
      ensures
        var joins := Qualifies(g, atr) && g.id !in old(ledger.seen);
        && ledger == old(ledger).(seen := ledger.seen, pending := ledger.pending)
        && ledger.seen == old(ledger.seen) + (if Qualifies(g, atr) then {g.id} else {})
        && ledger.pending == old(ledger.pending)
             + (if joins then [Waiting(g.id, g.instrument, g.at, atr[g.instrument])] else [])
    {
      Turn(Track(g, if g.instrument in atr then Some(atr[g.instrument]) else None));
    }

    /**
     Every BUY signal with a positive ATR whose id is new is queued exactly once, at the end; nothing
     else joins, and nothing else changes.
     */
    method TrackAll(signals: seq<Signal>, atr: map<string, real>)
      requires Valid()
      modifies this
      ensures Valid() && old(trace) <= trace
      ensures ledger == old(ledger).(seen := ledger.seen, pending := ledger.pending) && old(ledger.pending) <= ledger.pending
      ensures ledger.seen == old(ledger.seen) + set g | g in signals && Qualifies(g, atr) :: g.id
      ensures QueuesNew(old(ledger), ledger)
      ensures forall k | |old(ledger.pending)| <= k < |ledger.pending| :: FromSignal(ledger.pending[k], signals, atr)
    {
      hide QueuesNew;
      NoneQueued(ledger);
      for i := 0 to |signals|
        invariant Valid() && old(trace) <= trace
        invariant ledger == old(ledger).(seen := ledger.seen, pending := ledger.pending) && old(ledger.pending) <= ledger.pending
        invariant ledger.seen == old(ledger.seen) + set g | g in signals[..i] && Qualifies(g, atr) :: g.id
        invariant QueuesNew(old(ledger), ledger)
        invariant forall k | |old(ledger.pending)| <= k < |ledger.pending| :: FromSignal(ledger.pending[k], signals, atr)
      {
        ghost var before := ledger;
        var g := signals[i];
        TrackOne(g, atr);
        assert signals[..i + 1] == signals[..i] + [g];
        assert g in signals;
        QueuedOnce(old(ledger), before, ledger, g, atr);
      }
      assert signals[..|signals|] == signals;
    }

    /**
     Open what is due on this instrument, then close what the price or the clock closes: the queue and
     the open trades lose exactly those, the rest keeps its order, and what is opened comes last.
     */
    method OnQuote(instrument: string, price: Price, ts: int)
      requires Valid()
      modifies this
      ensures Valid() && old(trace) <= trace
      ensures
        var begun := OpenedTo(policy, old(ledger), instrument, price, ts, |old(ledger.pending)|);
        ledger == ClosedTo(policy, begun, instrument, price, ts, |begun.trades|)
    {
      OpenDue(instrument, price, ts);
      CloseDue(instrument, price, ts);
    }

    method OpenDue(instrument: string, price: Price, ts: int)
      requires Valid()
      modifies this
      ensures Valid() && old(trace) <= trace
      ensures ledger == OpenedTo(policy, old(ledger), instrument, price, ts, |old(ledger.pending)|)
    {
      hide Do, OpenedTo, StillWaiting, Waits;
      var i, todo := 0, ledger.pending;
      NothingOpened(policy, ledger, instrument, price, ts);
      for n := 0 to |todo|
        invariant Valid() && old(trace) <= trace && i == |StillWaiting(todo[..n], instrument, ts)|
        invariant ledger == OpenedTo(policy, old(ledger), instrument, price, ts, n)
      {
        OpenTurn(policy, old(ledger), instrument, price, ts, n);
        if Waits(ledger.pending[i], instrument, ts) {
          i := i + 1;
        } else {
          Turn(Open(i, price, ts));
        }
      }
    }

    static lemma NothingOpened(policy: Policy, s: Ledger, instrument: string, price: Price, ts: int)
      ensures OpenedTo(policy, s, instrument, price, ts, 0) == s && StillWaiting(s.pending[..0], instrument, ts) == []
      ensures ClosedTo(policy, s, instrument, price, ts, 0) == s && StillOpen(s.trades[..0], instrument, price, ts) == []
    {
      assert s.pending[..0] == [] && s.trades[..0] == [];
      NoItem(s.pending);
      NoItem(s.trades);
    }

    method CloseDue(instrument: string, price: Price, ts: int)
      requires Valid()
      modifies this
      ensures Valid() && old(trace) <= trace
      ensures ledger == ClosedTo(policy, old(ledger), instrument, price, ts, |old(ledger.trades)|)
    {
      hide Do, ClosedTo, StillOpen, Stays;
      var i, todo := 0, ledger.trades;
      NothingOpened(policy, ledger, instrument, price, ts);
      for n := 0 to |todo|
        invariant Valid() && old(trace) <= trace && i == |StillOpen(todo[..n], instrument, price, ts)|
        invariant ledger == ClosedTo(policy, old(ledger), instrument, price, ts, n)
      {
        CloseTurn(policy, old(ledger), instrument, price, ts, n);
        if Stays(ledger.trades[i], instrument, price, ts) {
          i := i + 1;
        } else {
          Turn(Close(i, price, ts));
        }
      }
    }

    /** Every open trade falls due for its time exit or trails its stop; nothing else changes. `held` counts sessions since a date. */
    method OnSessionStart(held: int -> int, closes: map<string, real>, atr: map<string, real>)
      requires Valid()
      modifies this
      ensures Valid() && old(trace) <= trace
      ensures ledger == old(ledger).(trades := ledger.trades) && |ledger.trades| == |old(ledger.trades)|
      ensures forall k | 0 <= k < |ledger.trades| ::
        ledger.trades[k] == AtSession(policy, old(ledger.trades)[k], held, closes, atr)
    {
      hide Trailed;
      var i := 0;
      while i < |ledger.trades|
        invariant Valid() && old(trace) <= trace && i <= |ledger.trades| == |old(ledger.trades)|
        invariant ledger == old(ledger).(trades := ledger.trades)
        invariant forall k | i <= k < |ledger.trades| :: ledger.trades[k] == old(ledger.trades)[k]
        invariant forall k | 0 <= k < i ::
          ledger.trades[k] == AtSession(policy, old(ledger.trades)[k], held, closes, atr)
        decreases |ledger.trades| - i
      {
        var t := ledger.trades[i];
        if policy.maxHold <= held(t.enteredOn) {
          Turn(TimeOut(i));
        } else {
          Turn(Trail(i, if t.instrument in closes then Some(closes[t.instrument]) else None,
                     if t.instrument in atr then Some(atr[t.instrument]) else None));
        }
        i := i + 1;
      }
    }

    /** Settle exactly what is known, in order, one event each; `known` says whether both index closes of an item are. */
    method SettleAlpha(known: Settling -> bool) returns (settled: nat)
      requires Valid()
      modifies this
      ensures Valid() && old(trace) <= trace
      ensures ledger == SettledTo(old(ledger), known, |old(ledger.settling)|)
      ensures settled + |Unsettled(old(ledger.settling), known)| == |old(ledger.settling)|
    {
      hide Do, SettledTo, Unsettled;
      var i, todo := 0, ledger.settling;
      settled := 0;
      NothingSettled(ledger, known);
      for n := 0 to |todo|
        invariant Valid() && old(trace) <= trace && i == |Unsettled(todo[..n], known)| == n - settled
        invariant ledger == SettledTo(old(ledger), known, n)
      {
        SettleTurn(policy, old(ledger), known, n);
        if known(ledger.settling[i]) {
          Turn(Settle(i));
          settled := settled + 1;
        } else {
          i := i + 1;
        }
      }
      assert todo[..|todo|] == todo;
    }

    static lemma NothingSettled(s: Ledger, known: Settling -> bool)
      ensures SettledTo(s, known, 0) == s && Unsettled(s.settling[..0], known) == []
    {
      assert s.settling[..0] == [];
      NoItem(s.settling);
    }
  }
}

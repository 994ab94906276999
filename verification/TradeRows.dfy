/**
 The trades and fills tables against the log: every logged piece and fill is a row as it was logged,
 no row is anything else, and in no run does one row overwrite another.
 */
module TradeRows {
  import opened Domain
  import opened PositionBook
  import opened BookReport
  import opened Oms
  import opened OmsRestart
  import BookProofs
  import OmsOnce
  import opened Pnl
  import opened Projections

  // ---- Any log ------------------------------------------------------------------------------------------

  function IdOf(p: ClosedPiece): TradeId { TradeId(p.fillId, p.index) }

  /** No two logged pieces share an id. */
  ghost predicate Distinct(pieces: seq<ClosedPiece>) {
    forall i, j | 0 <= i < j < |pieces| :: IdOf(pieces[i]) != IdOf(pieces[j])
  }

  /** The rows are the pieces, one each. */
  ghost predicate RowsAre(rows: map<TradeId, ClosedPiece>, pieces: seq<ClosedPiece>) {
    && (forall p | p in pieces :: IdOf(p) in rows && rows[IdOf(p)] == p)
    && (forall id | id in rows :: rows[id] in pieces && IdOf(rows[id]) == id)
  }

  lemma ProjectTrades(t: Tables, e: Event)
    ensures Project(t, e).trades == if e.TradeClosed? then t.trades[IdOf(e.piece) := e.piece] else t.trades
  {
  }

  lemma {:induction false} TradeRowsAre(log: seq<Event>)
    requires Distinct(Trades(log))
    ensures RowsAre(ProjectAll(NO_ROWS, log).trades, Trades(log))
  {
    if log != [] {
      var before, e := log[..|log| - 1], log[|log| - 1];
      ProjectTrades(ProjectAll(NO_ROWS, before), e);
      if e.TradeClosed? {
        var pieces := Trades(before);
        assert Trades(log) == pieces + [e.piece];
        assert Distinct(pieces) by { assert forall i | 0 <= i < |pieces| :: Trades(log)[i] == pieces[i]; }
        forall p | p in pieces ensures IdOf(p) != IdOf(e.piece) {
          var i :| 0 <= i < |pieces| && pieces[i] == p;
          assert Trades(log)[i] == p && Trades(log)[|pieces|] == e.piece;
        }
      } else {
        assert Trades(log) == Trades(before) + [] == Trades(before);
      }
      TradeRowsAre(before);
      hide Project;
    }
  }

  /** The fill a log first reports under an id. */
  ghost predicate FirstReport(log: seq<Event>, id: string, f: Fill) {
    exists i | 0 <= i < |log| ::
      && log[i].FillReceived? && log[i].fill == f && f.fillId == id
      && forall j | 0 <= j < i :: log[j].FillReceived? ==> log[j].fill.fillId != id
  }

  ghost predicate Reports(log: seq<Event>, id: string) { exists i | 0 <= i < |log| :: log[i].FillReceived? && log[i].fill.fillId == id }

  lemma ProjectFills(t: Tables, e: Event)
    ensures Project(t, e).fills ==
      if e.FillReceived? && e.fill.fillId !in t.fills then t.fills[e.fill.fillId := e.fill] else t.fills
  {
  }

  /** The fills table holds, for each id reported, the fill first reported under it. */
  lemma {:induction false} FillRowsAre(log: seq<Event>, id: string)
    ensures
      var fills := ProjectAll(NO_ROWS, log).fills;
      (id in fills <==> Reports(log, id)) && (id in fills ==> FirstReport(log, id, fills[id]))
  {
    if log != [] {
      var before, e := log[..|log| - 1], log[|log| - 1];
      var fills := ProjectAll(NO_ROWS, before).fills;
      FillRowsAre(before, id);
      ProjectFills(ProjectAll(NO_ROWS, before), e);
      hide Project;
      assert forall i | 0 <= i < |before| :: log[i] == before[i];
      if Reports(before, id) {
        var i :| 0 <= i < |before| && before[i].FillReceived? && before[i].fill.fillId == id;
        assert log[i].FillReceived? && log[i].fill.fillId == id;
        var k :| 0 <= k < |before| && before[k].FillReceived? && before[k].fill == fills[id] && fills[id].fillId == id
          && forall j | 0 <= j < k :: before[j].FillReceived? ==> before[j].fill.fillId != id;
        assert log[k].FillReceived? && log[k].fill == fills[id];
      } else if e.FillReceived? && e.fill.fillId == id {
        assert log[|before|] == e;
        forall j | 0 <= j < |before| ensures log[j].FillReceived? ==> log[j].fill.fillId != id {
          assert log[j] == before[j];
        }
      } else {
        forall i | 0 <= i < |log| ensures !(log[i].FillReceived? && log[i].fill.fillId == id) {
          if i < |before| { assert log[i] == before[i]; }
        }
      }
    }
  }

  // ---- Every run ------------------------------------------------------------------------------------------

  /** Logged pieces come from fills the book has seen, and no two share an id. */
  ghost predicate Kept(book: BookState, log: seq<Event>) {
    Distinct(Trades(log)) && forall p | p in Trades(log) :: p.fillId in book.seen
  }

  /** A fill's own pieces: its id, numbered from one. */
  lemma FillTrades(c: Core, f: Fill)
    requires c.book.Valid()
    ensures
      var e := OnFill(c, f);
      && c.book.seen <= e.core.book.seen
      && (Trades(e.events) != [] ==> f.fillId !in c.book.seen && f.fillId in e.core.book.seen)
      && forall i | 0 <= i < |Trades(e.events)| :: IdOf(Trades(e.events)[i]) == TradeId(f.fillId, i + 1)
  {
    if f.fillId !in c.book.seen && f.coid in c.orders && f.bookId == c.book.bookId {
      OrderFillTrades(c, f);
    } else {
      hide ApplyToLedger, PositionOf, AvgAfter;
      NoTrades(OnFill(c, f).events);
    }
  }

  lemma OrderFillTrades(c: Core, f: Fill)
    requires c.book.Valid() && f.fillId !in c.book.seen && f.coid in c.orders && f.bookId == c.book.bookId
    ensures
      var e := OnFill(c, f);
      && e.core.book.seen == c.book.seen + {f.fillId}
      && forall i | 0 <= i < |Trades(e.events)| :: IdOf(Trades(e.events)[i]) == TradeId(f.fillId, i + 1)
  {
    var o := c.orders[f.coid];
    var closed := BookFill(c.book, f, o.intent).1.closed;
    PiecesReported(c.book.LedgerAt(Key(f.instrument, o.intent.product)), f, o.intent.product, o.intent.strategy, o.intent.reason);
    assert forall i: nat | i < |closed| :: BookReport.Reported(closed[i], i, f, o.intent.product, o.intent.reason);
    RecordablePrefix(closed);
    EmittedTrades(c, f);
    hide OnFill, ApplyFill, Recordable, Trades;
  }

  /** The trades among a fill's events are the pieces that could be recorded. */
  lemma EmittedTrades(c: Core, f: Fill)
    requires f.fillId !in c.book.seen && f.coid in c.orders && f.bookId == c.book.bookId
    ensures
      var outcome := BookFill(c.book, f, c.orders[f.coid].intent).1;
      && outcome.Outcome? && Trades(OnFill(c, f).events) == Recordable(outcome.closed)
      && OnFill(c, f).core.book.seen == c.book.seen + {f.fillId}
  {
    hide ApplyToLedger, PositionOf, AvgAfter, Recordable;
    var o, e := c.orders[f.coid], OnFill(c, f);
    var outcome := BookFill(c.book, f, o.intent).1;
    var kept := Recordable(outcome.closed);
    var alerts := if o.filledQty + f.quantity > o.quantity then [Alert("oms_overfill")] else [];
    var head := alerts + [FillReceived(f, StatusAfter(o, f), FilledAfter(o, f), AvgAfter(o, f)),
                          PositionChanged(outcome.position, f.fillId)];
    assert e.events == head + TradeEvents(c.book.bookId, kept);
    TradesConcat(head, TradeEvents(c.book.bookId, kept));
    NoTrades(head);
    TradesOfEvents(c.book.bookId, kept);
    assert Trades(e.events) == [] + kept == kept;
  }

  lemma FillKeeps(c: Core, log: seq<Event>, f: Fill)
    requires c.book.Valid() && Kept(c.book, log)
    ensures Kept(OnFill(c, f).core.book, log + OnFill(c, f).events) && OnFill(c, f).core.book.Valid()
  {
    FillTrades(c, f);
    FillKeepsValid(c, f);
    var e := OnFill(c, f);
    TradesConcat(log, e.events);
    hide OnFill, Trades;
    var a, b := Trades(log), Trades(e.events);
    forall i, j | 0 <= i < j < |a + b| ensures IdOf((a + b)[i]) != IdOf((a + b)[j]) {
      if j < |a| {
        assert IdOf(a[i]) != IdOf(a[j]);
      } else if i < |a| {
        assert a[i] in a && IdOf(b[j - |a|]).fillId == f.fillId;
      } else {
        assert IdOf(b[i - |a|]) != IdOf(b[j - |a|]);
      }
    }
    forall p | p in a + b ensures p.fillId in e.core.book.seen {
      if p !in a {
        var i :| 0 <= i < |b| && b[i] == p;
        assert IdOf(p).fillId == f.fillId;
      }
    }
  }

  lemma FillKeepsValid(c: Core, f: Fill)
    requires c.book.Valid()
    ensures OnFill(c, f).core.book.Valid()
  {
    if f.fillId !in c.book.seen && f.bookId == c.book.bookId {
      var product := if f.coid in c.orders then c.orders[f.coid].intent.product else CNC;
      var strategy := if f.coid in c.orders then c.orders[f.coid].intent.strategy else "unknown";
      var reason := if f.coid in c.orders then c.orders[f.coid].intent.reason else "";
      BookProofs.FillKeepsWorth(c.book.LedgerAt(Key(f.instrument, product)), f, product, strategy, reason);
    }
    hide ApplyToLedger, PositionOf, AvgAfter, Recordable, TradeEvents;
  }

  lemma {:induction false} AdoptKeeps(c: Core, log: seq<Event>, fills: seq<Fill>)
    requires c.book.Valid() && Kept(c.book, log)
    ensures
      var e := AdoptFills(c, fills);
      Kept(e.core.book, log + e.events) && e.core.book.Valid()
    decreases |fills|
  {
    hide OnFill, Kept;
    if fills == [] {
      assert log + [] == log;
    } else {
      var first := OnFill(c, fills[0]);
      FillKeeps(c, log, fills[0]);
      if !first.raised {
        AdoptKeeps(first.core, log + first.events, fills[1..]);
        var rest := AdoptFills(first.core, fills[1..]);
        assert log + first.events + rest.events == log + (first.events + rest.events);
      }
    }
  }

  lemma QuietKeeps(book: BookState, log: seq<Event>, events: seq<Event>)
    requires Kept(book, log) && forall e | e in events :: !e.TradeClosed?
    ensures Kept(book, log + events)
  {
    TradesConcat(log, events);
    NoTrades(events);
    assert Trades(log) + [] == Trades(log);
  }

  lemma StepKeeps(s: State, step: Step)
    requires Synced(s) && s.core.book.Valid() && Kept(s.core.book, s.log)
    ensures Kept(Next(s, step).core.book, Next(s, step).log) && Next(s, step).core.book.Valid()
  {
    hide Kept, AdoptFills, Advances, Without;
    var c := s.core;
    match step
    case FillArrived(f) => hide OnFill, Synced; FillKeeps(c, s.log, f);
    case TagTrades(snap, trades) =>
      hide Synced, AckFound;
      AdoptKeeps(c, s.log, trades);
      if snap.coid in c.orders { ResolvedKeeps(c, s.log, snap, trades); } else { assert s.log + [] == s.log; }
    case Reconciliation(trades, inSync) =>
      hide Synced;
      AdoptKeeps(c, s.log, trades);
      var adopted := AdoptFills(c, trades);
      if !adopted.raised {
        var notes := [ReconciliationResult(c.book.bookId, inSync)] + if inSync then [] else [Alert("SYS_RECON_DRIFT")];
        QuietKeeps(adopted.core.book, s.log + adopted.events, notes);
        assert s.log + adopted.events + notes == s.log + (adopted.events + notes);
      }
    case Restart => hide Replay; assert s.log + [] == s.log;
    case Submit(_, _, _, _, _) => hide Reducible, Synced; QuietKeeps(c.book, s.log, StepEffect(s, step).events);
    case _ => hide Synced; OmsOnce.QuietStep(s, step); hide StepEffect; QuietKeeps(c.book, s.log, StepEffect(s, step).events);
  }

  lemma ResolvedKeeps(c: Core, log: seq<Event>, snap: Snapshot, trades: seq<Fill>)
    requires snap.coid in c.orders
    requires
      var e := AdoptFills(c, trades);
      Kept(e.core.book, log + e.events) && e.core.book.Valid()
    ensures
      var e := TagResolved(c, snap, trades);
      Kept(e.core.book, log + e.events) && e.core.book.Valid()
  {
    hide Kept, AdoptFills, Advances, Without;
    var adopted := AdoptFills(c, trades);
    if !adopted.raised {
      var ack := AckFound(adopted.core, snap, c.orders[snap.coid].intent.bookId);
      QuietKeeps(adopted.core.book, log + adopted.events, ack.events);
      assert log + adopted.events + ack.events == log + (adopted.events + ack.events);
    }
  }

  lemma {:induction false} RunKeeps(bookId: string, cash: real, steps: seq<Step>)
    requires OwnFills(bookId, steps)
    ensures var s := Run(NewState(bookId, cash), steps); Kept(s.core.book, s.log) && s.core.book.Valid()
  {
    if steps != [] {
      hide Next, Synced, Kept;
      var before, step := steps[..|steps| - 1], steps[|steps| - 1];
      assert forall st | st in before :: st in steps;
      RunKeeps(bookId, cash, before);
      RestartRefinement(bookId, cash, before);
      StepKeeps(Run(NewState(bookId, cash), before), step);
    }
  }

  /** In every run, restarts included, the trades table holds exactly the logged pieces, each as it was logged and under its own id. */
  lemma TradesTableIsLog(bookId: string, cash: real, steps: seq<Step>)
    requires OwnFills(bookId, steps)
    ensures
      var log := Run(NewState(bookId, cash), steps).log;
      RowsAre(ProjectAll(NO_ROWS, log).trades, Trades(log)) && Distinct(Trades(log))
  {
    RunKeeps(bookId, cash, steps);
    TradeRowsAre(Run(NewState(bookId, cash), steps).log);
  }
}

/** The OMS projectors registered with the event store: what the store keeps, and rebuilds, is what the OMS holds. */
module StoredTables {
  import opened Domain
  import opened Oms
  import opened OmsRestart
  import opened Projections
  import opened EventStore

  /** An event's stored type. */
  function KindOf(e: Event): string {
    match e
    case OrderSubmitted(_) => "OrderSubmitted"
    case OrderAcked(_, _, _, _) => "OrderAcked"
    case OrderRejected(_, _, _) => "OrderRejected"
    case OrderUnknown(_, _) => "OrderUnknown"
    case OrderCancelled(_, _, _) => "OrderCancelled"
    case OrderExpired(_, _, _) => "OrderExpired"
    case FillReceived(_, _, _, _) => "FillReceived"
    case PositionChanged(_, _) => "PositionChanged"
    case TradeClosed(_, _) => "TradeClosed"
    case ReconciliationResult(_, _) => "ReconciliationResult"
    case Alert(_) => "Alert"
  }

  /** The orders, fills, positions and trades projectors, taken together. */
  function OmsProjector(): Projector<Event, Tables> {
    Projector({"orders", "fills", "positions", "trades"},
              {"OrderSubmitted", "OrderAcked", "OrderRejected", "OrderUnknown", "OrderCancelled", "OrderExpired",
               "FillReceived", "PositionChanged", "TradeClosed"},
              NO_ROWS,
              (t: Tables, e: Stored<Event>) => Some(Project(t, e.payload)))
  }

  /** The log as the store numbers it. */
  function Numbered(log: seq<Event>): seq<Stored<Event>> {
    seq(|log|, i requires 0 <= i < |log| => Stored(i + 1, KindOf(log[i]), log[i]))
  }

  /** The kinds not handled are those the tables ignore. */
  lemma TakeIsProject(t: Tables, e: Event, n: nat)
    ensures OmsProjector().Take(t, Stored(n, KindOf(e), e)) == Some(Project(t, e))
  {
    if e.Alert? || e.ReconciliationResult? {
      assert Project(t, e) == t;
    }
  }

  lemma {:induction false} StoreKeepsTables(log: seq<Event>)
    ensures OmsProjector().Fold(Numbered(log)) == Some(ProjectAll(NO_ROWS, log))
  {
    hide Project;
    if log != [] {
      var init := log[..|log| - 1];
      StoreKeepsTables(init);
      assert Numbered(log)[..|log| - 1] == Numbered(init);
      TakeIsProject(ProjectAll(NO_ROWS, init), log[|log| - 1], |log|);
    }
  }

  /**
   In every run whose fills are this book's and whose cancels report their fills, the rows the store
   keeps for the log agree with the OMS and the book; being a fold of the log, a rebuild gives them back.
   */
  lemma StoredTablesAgree(bookId: string, cash: real, steps: seq<Step>)
    requires OwnFills(bookId, steps) && ReportedRun(NewState(bookId, cash), steps)
    ensures
      var s := Run(NewState(bookId, cash), steps);
      var rows := OmsProjector().Fold(Numbered(s.log));
      rows.Some? && Agree(s.core, rows.value)
  {
    hide Run, Agree, ReportedRun, OwnFills;
    StoreKeepsTables(Run(NewState(bookId, cash), steps).log);
    TablesAgree(bookId, cash, steps);
  }
}

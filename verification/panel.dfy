/** The ledger panel of the tenant directory as a state machine.

    The component keeps the tenant list, the selected tenant, that tenant's
    transactions, the last ledger error and a loading flag. Clicking "View
    Ledger" (or "Retry") starts a fetch, the fetch settles with data or an
    error, and the close button dismisses the panel. The fetch itself is not
    modelled: its outcome arrives as an event. Which part of the panel is
    rendered is a total function of the state.
 */
module Panel {
  import Ledger

  datatype Option<T> = None | Some(value: T)

  /** A row of `GET /api/tenants/`. */
  datatype Tenant = Tenant(id: int, name: string, unit: string)

  /** The component's state; an error is kept as its message. */
  datatype PanelState = PanelState(
    tenants: seq<Tenant>,
    selectedTenant: Option<Tenant>,
    transactions: seq<Ledger.Transaction>,
    ledgerError: Option<string>,
    loadingLedger: bool)

  /** The state once the tenant list has arrived: no panel open. */
  function Init(tenants: seq<Tenant>): (s: PanelState)
    ensures s.tenants == tenants
    ensures s.transactions == [] && s.ledgerError == None && !s.loadingLedger
    ensures DisplayMode(s) == Hidden
    ensures Ledger.Aggregate(s.transactions) == Ledger.Zero
  {
    PanelState(tenants, None, [], None, false)
  }

  // ---------------------------------------------------------------------
  // What is rendered

  /** The four mutually exclusive contents of the ledger body. */
  datatype Body = Spinner | ErrorMessage | NoTransactions | LedgerTable

  /** The panel is either absent or shown with a body and, optionally, the
      totals summary above it. */
  datatype Display = Hidden | Shown(summary: bool, body: Body)

  /** The panel appears only with a selected tenant. The summary needs
      transactions and no fetch in flight. The body is the spinner while
      loading, else the error, else the empty message, else the table. */
  function DisplayMode(s: PanelState): (d: Display)
    ensures d.Hidden? <==> s.selectedTenant.None?
    ensures d.Shown? ==> (d.summary <==> |s.transactions| > 0 && !s.loadingLedger)
    ensures d.Shown? && d.body != Spinner ==> !s.loadingLedger
    ensures d.Shown? && d.body == LedgerTable ==> |s.transactions| > 0 && s.ledgerError.None?
  {
    if s.selectedTenant.None? then Hidden
    else
      var summary := |s.transactions| > 0 && !s.loadingLedger;
      var body :=
        if s.loadingLedger then Spinner
        else if s.ledgerError.Some? then ErrorMessage
        else if |s.transactions| == 0 then NoTransactions
        else LedgerTable;
      Shown(summary, body)
  }

  /** Rank of each body in the rendering priority, highest first. */
  function Rank(b: Body): nat {
    match b
    case Spinner => 0
    case ErrorMessage => 1
    case NoTransactions => 2
    case LedgerTable => 3
  }

  /** The condition under which each body is a candidate for rendering. */
  predicate Applies(s: PanelState, b: Body) {
    match b
    case Spinner => s.loadingLedger
    case ErrorMessage => s.ledgerError.Some?
    case NoTransactions => |s.transactions| == 0
    case LedgerTable => true
  }

  /** The rendered body is the highest-priority body whose condition holds:
      loading before error before empty before table. */
  lemma DisplayFollowsPriority(s: PanelState)
    requires s.selectedTenant.Some?
    ensures DisplayMode(s).Shown?
    ensures Applies(s, DisplayMode(s).body)
    ensures forall b: Body :: Rank(b) < Rank(DisplayMode(s).body) ==> !Applies(s, b)
  {
  }

  // ---------------------------------------------------------------------
  // Transitions

  /** `handleViewLedger(tenant)`: select the tenant, start loading and clear
      the error. The previous transactions are kept until the fetch settles;
      the spinner hides them and their totals in the meantime. */
  function ViewLedger(s: PanelState, t: Tenant): (r: PanelState)
    ensures r.selectedTenant == Some(t) && r.loadingLedger && r.ledgerError == None
    ensures r.tenants == s.tenants && r.transactions == s.transactions
    ensures DisplayMode(r) == Shown(false, Spinner)
  {
    s.(selectedTenant := Some(t), loadingLedger := true, ledgerError := None)
  }

  /** The Retry button re-issues the request for the selected tenant. */
  function Retry(s: PanelState): (r: PanelState)
    requires s.selectedTenant.Some?
    ensures r.selectedTenant == s.selectedTenant
    ensures r.loadingLedger && r.ledgerError == None
    ensures r.tenants == s.tenants && r.transactions == s.transactions
    ensures DisplayMode(r) == Shown(false, Spinner)
  {
    ViewLedger(s, s.selectedTenant.value)
  }

  /** The fetch resolved with `data`: it becomes the transaction list and
      loading ends. The error is left as it is. */
  function FetchOk(s: PanelState, data: seq<Ledger.Transaction>): (r: PanelState)
    ensures !r.loadingLedger
    ensures r.transactions == data
    ensures r.tenants == s.tenants && r.selectedTenant == s.selectedTenant
    ensures r.ledgerError == s.ledgerError
    ensures s.selectedTenant.Some? && s.ledgerError.None? ==>
      DisplayMode(r) == Shown(|data| > 0, if |data| == 0 then NoTransactions else LedgerTable)
  {
    s.(transactions := data, loadingLedger := false)
  }

  /** The fetch was rejected: the error is recorded, the transactions are
      emptied, and loading ends. */
  function FetchFail(s: PanelState, message: string): (r: PanelState)
    ensures !r.loadingLedger
    ensures r.ledgerError == Some(message) && |r.transactions| == 0
    ensures Ledger.Aggregate(r.transactions) == Ledger.Zero
    ensures r.tenants == s.tenants && r.selectedTenant == s.selectedTenant
    ensures s.selectedTenant.Some? ==> DisplayMode(r) == Shown(false, ErrorMessage)
  {
    s.(ledgerError := Some(message), transactions := [], loadingLedger := false)
  }

  /** `handleCloseLedger`: deselect, drop the transactions and the error. The
      loading flag is not touched. */
  function Close(s: PanelState): (r: PanelState)
    ensures DisplayMode(r) == Hidden
    ensures r.selectedTenant == None && |r.transactions| == 0 && r.ledgerError == None
    ensures Ledger.Aggregate(r.transactions) == Ledger.Zero
    ensures r.tenants == s.tenants && r.loadingLedger == s.loadingLedger
  {
    s.(selectedTenant := None, transactions := [], ledgerError := None)
  }

  /** View a ledger and have its fetch fail: the error is shown, loading has
      ended, and no totals remain. */
  lemma ViewThenFail(s: PanelState, t: Tenant, message: string)
    ensures DisplayMode(FetchFail(ViewLedger(s, t), message)) == Shown(false, ErrorMessage)
    ensures !FetchFail(ViewLedger(s, t), message).loadingLedger
    ensures Ledger.Aggregate(FetchFail(ViewLedger(s, t), message).transactions) == Ledger.Zero
  {
  }

  /** View a ledger and have its fetch succeed: loading has ended and the
      new transactions are shown, with their summary, or the empty message. */
  lemma ViewThenLoad(s: PanelState, t: Tenant, data: seq<Ledger.Transaction>)
    ensures FetchOk(ViewLedger(s, t), data).transactions == data
    ensures !FetchOk(ViewLedger(s, t), data).loadingLedger
    ensures |data| == 0 ==> DisplayMode(FetchOk(ViewLedger(s, t), data)) == Shown(false, NoTransactions)
    ensures |data| > 0 ==> DisplayMode(FetchOk(ViewLedger(s, t), data)) == Shown(true, LedgerTable)
  {
  }

  // ---------------------------------------------------------------------
  // Sequential runs

  /** User actions and fetch outcomes. */
  datatype Event =
    | ClickView(tenant: Tenant)
    | ClickRetry
    | FetchResolved(data: seq<Ledger.Transaction>)
    | FetchRejected(message: string)
    | ClickClose

  /** When an event can occur in a run without overlapping fetches: a ledger
      is requested for a listed tenant when no fetch is in flight, Retry only
      while the error is on screen, a fetch outcome only while loading, and
      Close only while the panel is open. */
  predicate Enabled(s: PanelState, e: Event) {
    match e
    case ClickView(t) => t in s.tenants && !s.loadingLedger
    case ClickRetry => DisplayMode(s).Shown? && DisplayMode(s).body == ErrorMessage
    case FetchResolved(_) => s.loadingLedger
    case FetchRejected(_) => s.loadingLedger
    case ClickClose => s.selectedTenant.Some?
  }

  function Next(s: PanelState, e: Event): PanelState
    requires Enabled(s, e)
  {
    match e
    case ClickView(t) => ViewLedger(s, t)
    case ClickRetry => Retry(s)
    case FetchResolved(data) => FetchOk(s, data)
    case FetchRejected(message) => FetchFail(s, message)
    case ClickClose => Close(s)
  }

  /** Apply the events in order; `None` if one of them cannot occur. */
  function Run(s: PanelState, es: seq<Event>): Option<PanelState>
    decreases |es|
  {
    if |es| == 0 then Some(s)
    else if !Enabled(s, es[0]) then None
    else Run(Next(s, es[0]), es[1..])
  }

  /** The consistency of a state reached without overlapping fetches: an
      error comes with no transactions and no fetch in flight, and the
      selected tenant is one of the listed tenants. */
  predicate Consistent(s: PanelState) {
    && (s.ledgerError.Some? ==> |s.transactions| == 0 && !s.loadingLedger)
    && (s.selectedTenant.Some? ==> s.selectedTenant.value in s.tenants)
  }

  lemma NextKeepsConsistent(s: PanelState, e: Event)
    requires Consistent(s) && Enabled(s, e)
    ensures Consistent(Next(s, e))
    ensures Next(s, e).tenants == s.tenants
  {
  }

  /** Every run from a consistent state stays consistent and never changes
      the tenant list. */
  lemma {:induction false} RunKeepsConsistent(s: PanelState, es: seq<Event>)
    requires Consistent(s)
    ensures Run(s, es).Some? ==> Consistent(Run(s, es).value)
    ensures Run(s, es).Some? ==> Run(s, es).value.tenants == s.tenants
    decreases |es|
  {
    if |es| > 0 && Enabled(s, es[0]) {
      NextKeepsConsistent(s, es[0]);
      RunKeepsConsistent(Next(s, es[0]), es[1..]);
    }
  }

  /** In a consistent state the totals summary is shown exactly when the
      transaction table is: never beside the spinner, an error or the empty
      message. */
  lemma SummaryOnlyWithTable(s: PanelState)
    requires Consistent(s)
    ensures DisplayMode(s).Shown? ==> (DisplayMode(s).summary <==> DisplayMode(s).body == LedgerTable)
  {
  }

  /** From the initial state, every run without overlapping fetches shows the
      totals only together with the table of the transactions they sum. */
  lemma NoStaleTotals(tenants: seq<Tenant>, es: seq<Event>)
    ensures Run(Init(tenants), es).Some? && Run(Init(tenants), es).value.selectedTenant.Some? ==>
      var s := Run(Init(tenants), es).value;
      DisplayMode(s).summary <==> DisplayMode(s).body == LedgerTable
  {
    RunKeepsConsistent(Init(tenants), es);
    if Run(Init(tenants), es).Some? {
      SummaryOnlyWithTable(Run(Init(tenants), es).value);
    }
  }
}

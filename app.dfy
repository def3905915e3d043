/** The root controller of the front end: five pieces of view state, the transitions
    its handlers make, and the choice of what the main area shows. Each asynchronous
    handler is split at its `await` into a start transition and a completion
    transition; completions arrive as separate events. */
module AppState {
  import opened Domain
  import StockDetail

  const ListFailure := "Failed to fetch stock data. Please ensure the backend is running on port 8000."

  function DetailFailure(ticker: string): string
  {
    "Failed to fetch details for " + ticker
  }

  /** What the main area shows: the list spinner, the detail view (with the detail
      loading flag it is given) or the table of stocks. */
  datatype Main = Spinner | DetailPane(stock: SelectedStock, loading: bool) | TablePane(stocks: seq<Stock>)

  class App {
    var stocks: seq<Stock>
    var selectedStock: Option<SelectedStock>
    var loading: bool
    var error: Option<string>
    var detailLoading: bool

    /** Every transition keeps these: a detail fetch in flight always has the selection
        cleared, and a selection always carries its analysis. */
    ghost predicate Valid()
      reads this
    {
      && (detailLoading ==> selectedStock.None?)
      && (selectedStock.Some? ==> selectedStock.value.analysis.Some?)
    }

    /** The initial state, before the mount effect starts the first list fetch. */
    constructor ()
      ensures Valid()
      ensures stocks == [] && selectedStock == None && loading && error == None && !detailLoading
    {
      stocks := [];
      selectedStock := None;
      loading := true;
      error := None;
      detailLoading := false;
    }

    /** `fetchTopStocks` up to its request; also what Refresh and the banner's Retry run. */
    method StartFetch()
      requires Valid()
      modifies this
      ensures Valid()
      ensures loading && error == None
      ensures stocks == old(stocks) && selectedStock == old(selectedStock)
      ensures detailLoading == old(detailLoading)
      ensures View() == Spinner
    {
      loading := true;
      error := None;
    }

    /** The list request answered with `data`. */
    method FetchSucceeded(data: seq<Stock>)
      requires Valid()
      modifies this
      ensures Valid()
      ensures stocks == data && !loading
      ensures selectedStock == old(selectedStock) && error == old(error)
      ensures detailLoading == old(detailLoading)
    {
      stocks := data;
      loading := false;
    }

    /** The list request failed: the old list stays, the fixed message is shown. */
    method FetchFailed()
      requires Valid()
      modifies this
      ensures Valid()
      ensures error == Some(ListFailure) && !loading
      ensures stocks == old(stocks) && selectedStock == old(selectedStock)
      ensures detailLoading == old(detailLoading)
    {
      error := Some(ListFailure);
      loading := false;
    }

    /** `handleSelectStock(ticker)` up to its paired requests. The error is not cleared,
        and unless the list is loading the table is what stays on screen. */
    method StartSelect(ticker: string)
      requires Valid()
      modifies this
      ensures Valid()
      ensures detailLoading && selectedStock == None
      ensures stocks == old(stocks) && loading == old(loading) && error == old(error)
      ensures !loading ==> View() == TablePane(stocks)
    {
      detailLoading := true;
      selectedStock := None;
    }

    /** Both requests answered: the history payload with the analysis attached becomes
        the selection. The error is not cleared. */
    method SelectSucceeded(payload: HistoryPayload, analysis: Analysis)
      requires Valid()
      modifies this
      ensures Valid()
      ensures selectedStock == Some(SelectedStock(payload.ticker, payload.company, payload.history, Some(analysis)))
      ensures !detailLoading
      ensures stocks == old(stocks) && loading == old(loading) && error == old(error)
    {
      selectedStock := Some(SelectedStock(payload.ticker, payload.company, payload.history, Some(analysis)));
      detailLoading := false;
    }

    /** Either request failed: the ticker-specific message replaces any earlier one and
        the selection is left as it is (cleared by the start transition). */
    method SelectFailed(ticker: string)
      requires Valid()
      modifies this
      ensures Valid()
      ensures error == Some(DetailFailure(ticker)) && !detailLoading
      ensures stocks == old(stocks) && loading == old(loading) && selectedStock == old(selectedStock)
    {
      error := Some(DetailFailure(ticker));
      detailLoading := false;
    }

    /** `handleBackToList`: only the selection changes. */
    method Back()
      requires Valid()
      modifies this
      ensures Valid()
      ensures selectedStock == None
      ensures stocks == old(stocks) && loading == old(loading) && error == old(error)
      ensures detailLoading == old(detailLoading)
      ensures !loading ==> View() == TablePane(stocks)
    {
      selectedStock := None;
    }

    /** The main area: the spinner while the list loads, otherwise the detail view when a
        stock is selected, otherwise the table. */
    function View(): (m: Main)
      reads this
      ensures m == Spinner <==> loading
      ensures m.DetailPane? <==> !loading && selectedStock.Some?
      ensures m.TablePane? <==> !loading && selectedStock.None?
      ensures m.DetailPane? ==> m.stock == selectedStock.value && m.loading == detailLoading
      ensures m.TablePane? ==> m.stocks == stocks
    {
      if loading then Spinner
      else if selectedStock.Some? then DetailPane(selectedStock.value, detailLoading)
      else TablePane(stocks)
    }

    /** The error banner above the main area, whatever the main area shows; its Retry
        button runs `StartFetch`. */
    function Banner(): (b: Option<string>)
      reads this
      ensures b.Some? <==> error.Some?
      ensures b.Some? ==> b.value == error.value
    {
      error
    }
  }

  /** Whenever the root shows the detail pane, the detail view renders in full: its own
      "analyzing" placeholder and its empty state are unreachable from the root. */
  lemma DetailPaneRendersInFull(app: App, dateLabel: string -> string, parsedChange: (real, real) -> real)
    requires app.Valid()
    requires app.View().DetailPane?
    ensures StockDetail.Render(Some(app.View().stock), app.View().loading, dateLabel, parsedChange).Shown?
  {
  }

  /** Selecting a stock from the table and receiving both answers opens its detail view. */
  method OpenDetail(app: App, payload: HistoryPayload, analysis: Analysis)
    requires app.Valid() && !app.loading
    modifies app
    ensures app.Valid()
    ensures app.View() == DetailPane(
              SelectedStock(payload.ticker, payload.company, payload.history, Some(analysis)), false)
    ensures app.error == old(app.error) && app.stocks == old(app.stocks)
  {
    app.StartSelect(payload.ticker);
    assert app.View().TablePane?;
    app.SelectSucceeded(payload, analysis);
  }

  /** A failed selection keeps the table on screen and shows the ticker's message. */
  method FailDetail(app: App, ticker: string)
    requires app.Valid() && !app.loading
    modifies app
    ensures app.Valid()
    ensures app.View() == TablePane(old(app.stocks))
    ensures app.Banner() == Some(DetailFailure(ticker))
  {
    app.StartSelect(ticker);
    app.SelectFailed(ticker);
  }

  /** Retrying from the detail view shows the spinner, and a successful list fetch then
      returns to the same detail view rather than to the table; the banner is gone. */
  method RetryFromDetail(app: App, data: seq<Stock>)
    requires app.Valid() && app.View().DetailPane?
    modifies app
    ensures app.Valid()
    ensures app.View() == old(app.View())
    ensures app.stocks == data && app.Banner() == None
  {
    app.StartFetch();
    assert app.View() == Spinner;
    app.FetchSucceeded(data);
  }

  /** A stock is selected from the table, Refresh is pressed before the detail answers
      arrive, and the detail failure then lands while the list is loading: the spinner
      and an error banner are on screen together. */
  method FailureDuringListLoad(app: App, ticker: string)
    requires app.Valid() && !app.loading && app.selectedStock.None?
    modifies app
    ensures app.Valid()
    ensures app.View() == Spinner && app.Banner() == Some(DetailFailure(ticker))
  {
    app.StartSelect(ticker);
    app.StartFetch();
    app.SelectFailed(ticker);
  }
}

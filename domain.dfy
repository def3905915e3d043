/** Records exchanged between the RealTicker backend and its single-page front end.
    Numbers the backend produces as Python floats are modelled as `real`, volumes as `nat`. */
module Domain {

  datatype Option<+T> = None | Some(value: T)

  /** One row of the top-volume list (the `Stock` record of the backend). */
  datatype Stock = Stock(
    ticker: string,
    company: string,
    price: real,
    change: real,
    volume: nat,
    sector: string)

  /** One trading day of simulated history. */
  datatype HistoryPoint = HistoryPoint(date: string, price: real)

  /** The body of the history endpoint. */
  datatype HistoryPayload = HistoryPayload(ticker: string, company: string, history: seq<HistoryPoint>)

  /** The body of the analyze endpoint; trend and risk are free text on the wire. */
  datatype Analysis = Analysis(
    ticker: string,
    trend: string,
    riskLevel: string,
    suggestedAction: string,
    analysis: string,
    disclaimer: string)

  /** The history payload with the analysis attached, as the detail view receives it. */
  datatype SelectedStock = SelectedStock(
    ticker: string,
    company: string,
    history: seq<HistoryPoint>,
    analysis: Option<Analysis>)

  function Min(a: int, b: int): int
  {
    if a <= b then a else b
  }

  function Max(a: int, b: int): int
  {
    if a <= b then b else a
  }
}

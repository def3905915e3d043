/** The detail view of one stock: its guards, the chart window, the two headline prices
    and the colour and icon maps. Locale date formatting and the two-decimal change text
    are parameters. */
module StockDetail {
  import opened Domain
  import opened Display

  // ---------------------------------------------------------------------------
  // Chart and prices

  /** The chart shows at most this many of the most recent points. */
  const ChartDays: nat := 90

  datatype ChartPoint = ChartPoint(day: string, price: real)

  /** `history.slice(-90)` mapped to chart points; `dateLabel` stands for the locale
      short month-and-day formatting. */
  function ChartData(history: seq<HistoryPoint>, dateLabel: string -> string): (chart: seq<ChartPoint>)
    ensures |chart| == Min(ChartDays, |history|)
    ensures forall i :: 0 <= i < |chart| ==>
              chart[i].price == history[|history| - |chart| + i].price
              && chart[i].day == dateLabel(history[|history| - |chart| + i].date)
  {
    var window := history[Max(0, |history| - ChartDays)..];
    seq(|window|, i requires 0 <= i < |window| => ChartPoint(dateLabel(window[i].date), window[i].price))
  }

  /** The price of the last point of the full history, or 0 when there is none. */
  function CurrentPrice(history: seq<HistoryPoint>): real
  {
    if history == [] then 0.0 else history[|history| - 1].price
  }

  /** The price of the first point of the full history, or 0 when there is none. */
  function StartPrice(history: seq<HistoryPoint>): real
  {
    if history == [] then 0.0 else history[0].price
  }

  /** The chart always ends at the current price, but it starts at the start price only
      when the history fits the window: with more than 90 points the change is measured
      from a point the chart does not show. */
  lemma ChartEnds(history: seq<HistoryPoint>, dateLabel: string -> string)
    ensures var chart := ChartData(history, dateLabel);
            && (chart == [] <==> history == [])
            && (history == [] ==> CurrentPrice(history) == 0.0 && StartPrice(history) == 0.0)
            && (history != [] ==> chart[|chart| - 1].price == CurrentPrice(history))
            && (0 < |history| <= ChartDays ==> chart[0].price == StartPrice(history))
            && (|history| > ChartDays ==> chart[0].price == history[|history| - ChartDays].price)
  {
  }

  // ---------------------------------------------------------------------------
  // Case-insensitive keyword maps

  function LowerChar(c: char): char
  {
    if 'A' <= c <= 'Z' then (c as int + 32) as char else c
  }

  function UpperChar(c: char): char
  {
    if 'a' <= c <= 'z' then (c as int - 32) as char else c
  }

  /** `toLowerCase()` on the ASCII letters; every other character is kept. */
  function Lower(s: string): (r: string)
    ensures |r| == |s|
    ensures forall i :: 0 <= i < |s| ==> r[i] == LowerChar(s[i])
  {
    seq(|s|, i requires 0 <= i < |s| => LowerChar(s[i]))
  }

  predicate LowerWord(w: string)
  {
    forall i :: 0 <= i < |w| ==> 'a' <= w[i] <= 'z'
  }

  /** `s` spells the lower-case word `w`, each letter in either case. */
  predicate SpellsIgnoringCase(s: string, w: string)
  {
    |s| == |w| && forall i :: 0 <= i < |s| ==> s[i] == w[i] || s[i] == UpperChar(w[i])
  }

  lemma LowerMatches(s: string, w: string)
    requires LowerWord(w)
    ensures Lower(s) == w <==> SpellsIgnoringCase(s, w)
  {
    if SpellsIgnoringCase(s, w) {
      assert forall i :: 0 <= i < |s| ==> Lower(s)[i] == w[i];
    }
    if Lower(s) == w {
      forall i | 0 <= i < |s| ensures s[i] == w[i] || s[i] == UpperChar(w[i]) {
        assert LowerChar(s[i]) == w[i];
      }
    }
  }

  const LowRiskColor := "#00ff88"
  const MediumRiskColor := "#ffaa00"
  const HighRiskColor := "#ff4466"
  const NeutralColor := "#8892b0"

  function RiskColor(risk: string): string
  {
    var key := Lower(risk);
    if key == "low" then LowRiskColor
    else if key == "medium" then MediumRiskColor
    else if key == "high" then HighRiskColor
    else NeutralColor
  }

  /** Each colour is chosen exactly for its risk word in any letter case; every other
      label, the empty one included, gets the neutral colour. */
  lemma RiskColorMap(risk: string)
    ensures RiskColor(risk) == LowRiskColor <==> SpellsIgnoringCase(risk, "low")
    ensures RiskColor(risk) == MediumRiskColor <==> SpellsIgnoringCase(risk, "medium")
    ensures RiskColor(risk) == HighRiskColor <==> SpellsIgnoringCase(risk, "high")
    ensures RiskColor(risk) == NeutralColor <==>
              !SpellsIgnoringCase(risk, "low") && !SpellsIgnoringCase(risk, "medium")
              && !SpellsIgnoringCase(risk, "high")
  {
    LowerMatches(risk, "low");
    LowerMatches(risk, "medium");
    LowerMatches(risk, "high");
  }

  const UpwardIcon := "\U{1F4C8}"
  const DownwardIcon := "\U{1F4C9}"
  const SidewaysIcon := "\U{2194}\U{FE0F}"
  const DefaultIcon := "\U{1F4CA}"

  function TrendIcon(trend: string): string
  {
    var key := Lower(trend);
    if key == "upward" then UpwardIcon
    else if key == "downward" then DownwardIcon
    else if key == "sideways" then SidewaysIcon
    else DefaultIcon
  }

  lemma TrendIconMap(trend: string)
    ensures TrendIcon(trend) == UpwardIcon <==> SpellsIgnoringCase(trend, "upward")
    ensures TrendIcon(trend) == DownwardIcon <==> SpellsIgnoringCase(trend, "downward")
    ensures TrendIcon(trend) == SidewaysIcon <==> SpellsIgnoringCase(trend, "sideways")
    ensures TrendIcon(trend) == DefaultIcon <==>
              !SpellsIgnoringCase(trend, "upward") && !SpellsIgnoringCase(trend, "downward")
              && !SpellsIgnoringCase(trend, "sideways")
  {
    LowerMatches(trend, "upward");
    LowerMatches(trend, "downward");
    LowerMatches(trend, "sideways");
  }

  // ---------------------------------------------------------------------------
  // Rendering

  datatype DetailView = DetailView(
    ticker: string,
    company: string,
    chart: seq<ChartPoint>,
    currentPrice: real,
    startPrice: real,
    changeCell: ChangeCell,
    trendIcon: string,
    trend: string,
    riskColor: string,
    riskLevel: string,
    analysis: string,
    suggestion: string,
    disclaimer: string)

  /** The loading placeholder, nothing at all, or the full view. */
  datatype DetailScreen = AnalyzingPlaceholder | Nothing | Shown(view: DetailView)

  /** `parsedChange(current, start)` stands for the percentage change as the view parses
      it back from its two-decimal text. */
  function Render(stock: Option<SelectedStock>, loading: bool, dateLabel: string -> string,
                  parsedChange: (real, real) -> real): (screen: DetailScreen)
    ensures loading ==> screen == AnalyzingPlaceholder
    ensures !loading && (stock.None? || stock.value.analysis.None?) ==> screen == Nothing
    ensures screen.Shown? <==> !loading && stock.Some? && stock.value.analysis.Some?
    ensures screen.Shown? ==>
              && screen.view.ticker == stock.value.ticker
              && screen.view.company == stock.value.company
              && screen.view.analysis == stock.value.analysis.value.analysis
              && screen.view.trend == stock.value.analysis.value.trend
              && screen.view.riskLevel == stock.value.analysis.value.riskLevel
              && screen.view.suggestion == stock.value.analysis.value.suggestedAction
              && screen.view.disclaimer == stock.value.analysis.value.disclaimer
  {
    if loading then AnalyzingPlaceholder
    else if stock.None? || stock.value.analysis.None? then Nothing
    else
      var s := stock.value;
      var a := s.analysis.value;
      var current, start := CurrentPrice(s.history), StartPrice(s.history);
      Shown(DetailView(
        s.ticker, s.company, ChartData(s.history, dateLabel), current, start,
        ChangeCellOf(parsedChange(current, start)),
        TrendIcon(a.trend), a.trend, RiskColor(a.riskLevel), a.riskLevel,
        a.analysis, a.suggestedAction, a.disclaimer))
  }

  /** The shown view's numbers and decorations come from the history and the analysis:
      the six-month change is positive (with a "+") iff the parsed change is at least 0. */
  lemma RenderDerivations(s: SelectedStock, dateLabel: string -> string, parsedChange: (real, real) -> real)
    requires s.analysis.Some?
    ensures var screen := Render(Some(s), false, dateLabel, parsedChange);
            && screen.Shown?
            && screen.view.chart == ChartData(s.history, dateLabel)
            && screen.view.currentPrice == CurrentPrice(s.history)
            && screen.view.startPrice == StartPrice(s.history)
            && (screen.view.changeCell.tone == Positive
                <==> parsedChange(CurrentPrice(s.history), StartPrice(s.history)) >= 0.0)
            && (screen.view.changeCell.prefix == "+"
                <==> parsedChange(CurrentPrice(s.history), StartPrice(s.history)) >= 0.0)
            && screen.view.riskColor == RiskColor(s.analysis.value.riskLevel)
            && screen.view.trendIcon == TrendIcon(s.analysis.value.trend)
  {
  }
}

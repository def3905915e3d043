/** The decision logic of the RealTicker backend: the ticker whitelist, the top-volume
    selection, the trend and risk classifiers and the two suggestion tables.
    Randomly generated prices, the clock and the HuggingFace call are parameters. */
module Backend {
  import opened Domain

  // ---------------------------------------------------------------------------
  // Errors reported to the client

  datatype HttpError = HttpError(status: nat, detail: string)

  datatype Result<+T> = Ok(value: T) | Err(error: HttpError)

  const NotFound := HttpError(404, "Stock not found")

  /** An uncaught exception (an unpacking ValueError, a ZeroDivisionError). */
  const InternalError := HttpError(500, "Internal Server Error")

  // ---------------------------------------------------------------------------
  // The fifteen known tickers

  datatype Listing = Listing(name: string, sector: string)

  const StockData: map<string, Listing> := map[
    "AAPL" := Listing("Apple Inc", "Technology"),
    "MSFT" := Listing("Microsoft Corporation", "Technology"),
    "GOOGL" := Listing("Alphabet Inc", "Technology"),
    "AMZN" := Listing("Amazon.com Inc", "Consumer Cyclical"),
    "TSLA" := Listing("Tesla Inc", "Automotive"),
    "META" := Listing("Meta Platforms Inc", "Technology"),
    "NVDA" := Listing("NVIDIA Corporation", "Technology"),
    "JPM" := Listing("JPMorgan Chase & Co", "Financial"),
    "V" := Listing("Visa Inc", "Financial"),
    "WMT" := Listing("Walmart Inc", "Retail"),
    "JNJ" := Listing("Johnson & Johnson", "Healthcare"),
    "PG" := Listing("Procter & Gamble", "Consumer Goods"),
    "MA" := Listing("Mastercard Inc", "Financial"),
    "HD" := Listing("Home Depot Inc", "Retail"),
    "DIS" := Listing("Walt Disney Co", "Entertainment")
  ]

  /** The history endpoint. `history` stands for the simulated prices the
      endpoint generates for a known ticker. */
  function GetStockHistory(ticker: string, history: seq<HistoryPoint>): (r: Result<HistoryPayload>)
    ensures r.Err? <==> ticker !in StockData
    ensures r.Err? ==> r.error == NotFound
    ensures r.Ok? ==> r.value == HistoryPayload(ticker, StockData[ticker].name, history)
  {
    if ticker !in StockData then Err(NotFound)
    else Ok(HistoryPayload(ticker, StockData[ticker].name, history))
  }

  // ---------------------------------------------------------------------------
  // Top ten by volume: a stable sort, descending, then truncation

  ghost predicate NonIncreasing(s: seq<Stock>)
  {
    forall i, j :: 0 <= i < j < |s| ==> s[i].volume >= s[j].volume
  }

  /** The stocks of `s` whose volume is `v`, in the order of `s`. */
  function WithVolume(s: seq<Stock>, v: nat): seq<Stock>
  {
    if s == [] then [] else VolumeMatch(s[0], v) + WithVolume(s[1..], v)
  }

  lemma {:induction false} WithVolumeAppend(a: seq<Stock>, b: seq<Stock>, v: nat)
    ensures WithVolume(a + b, v) == WithVolume(a, v) + WithVolume(b, v)
  {
    if a == [] {
      assert a + b == b;
    } else {
      assert (a + b)[0] == a[0] && (a + b)[1..] == a[1..] + b;
      WithVolumeAppend(a[1..], b, v);
      calc {
        WithVolume(a + b, v);
        VolumeMatch(a[0], v) + WithVolume(a[1..] + b, v);
        VolumeMatch(a[0], v) + (WithVolume(a[1..], v) + WithVolume(b, v));
        (VolumeMatch(a[0], v) + WithVolume(a[1..], v)) + WithVolume(b, v);
        WithVolume(a, v) + WithVolume(b, v);
      }
    }
  }

  /** Places `x` before the first element whose volume does not exceed its own, so that
      `x`, which came first in the input, stays ahead of the stocks with equal volume. */
  function InsertByVolume(x: Stock, t: seq<Stock>): (r: seq<Stock>)
    ensures |r| == |t| + 1
    ensures multiset(r) == multiset(t) + multiset{x}
  {
    if t == [] || t[0].volume <= x.volume then [x] + t
    else
      assert t == [t[0]] + t[1..];
      [t[0]] + InsertByVolume(x, t[1..])
  }

  lemma {:induction false} InsertByVolumeBounded(x: Stock, t: seq<Stock>, b: nat)
    requires x.volume <= b
    requires forall i :: 0 <= i < |t| ==> t[i].volume <= b
    ensures forall i :: 0 <= i < |t| + 1 ==> InsertByVolume(x, t)[i].volume <= b
  {
    if !(t == [] || t[0].volume <= x.volume) {
      InsertByVolumeBounded(x, t[1..], b);
    }
  }

  lemma {:induction false} InsertByVolumeSorted(x: Stock, t: seq<Stock>)
    requires NonIncreasing(t)
    ensures NonIncreasing(InsertByVolume(x, t))
  {
    var r := InsertByVolume(x, t);
    if t == [] || t[0].volume <= x.volume {
      forall i, j | 0 <= i < j < |r| ensures r[i].volume >= r[j].volume {
        assert r[j] == t[j - 1];
        if i > 0 {
          assert r[i] == t[i - 1];
        } else if j > 1 {
          assert t[0].volume >= t[j - 1].volume;
        }
      }
    } else {
      var rest := InsertByVolume(x, t[1..]);
      InsertByVolumeSorted(x, t[1..]);
      InsertByVolumeBounded(x, t[1..], t[0].volume);
      assert r == [t[0]] + rest;
      forall i, j | 0 <= i < j < |r| ensures r[i].volume >= r[j].volume {
        assert r[j] == rest[j - 1];
        if i > 0 {
          assert r[i] == rest[i - 1];
        }
      }
    }
  }

  function VolumeMatch(y: Stock, v: nat): seq<Stock>
  {
    if y.volume == v then [y] else []
  }

  lemma WithVolumeSingle(y: Stock, v: nat)
    ensures WithVolume([y], v) == VolumeMatch(y, v)
  {
    assert [y][1..] == [];
  }

  lemma {:induction false} InsertByVolumeStable(x: Stock, t: seq<Stock>, v: nat)
    ensures WithVolume(InsertByVolume(x, t), v) == WithVolume([x] + t, v)
  {
    if !(t == [] || t[0].volume <= x.volume) {
      var t0, tail := t[0], t[1..];
      var rest := InsertByVolume(x, tail);
      assert InsertByVolume(x, t) == [t0] + rest;
      assert t == [t0] + tail;
      InsertByVolumeStable(x, tail, v);
      WithVolumeAppend([t0], rest, v);
      WithVolumeAppend([x], tail, v);
      WithVolumeAppend([t0], tail, v);
      WithVolumeAppend([x], t, v);
      WithVolumeSingle(x, v);
      WithVolumeSingle(t0, v);
      var a, b, c := VolumeMatch(t0, v), VolumeMatch(x, v), WithVolume(tail, v);
      assert a == [] || b == [];
      assert WithVolume(InsertByVolume(x, t), v) == a + (b + c);
      assert WithVolume([x] + t, v) == b + (a + c);
    }
  }

  /** Python's `sorted(stocks, key=volume, reverse=True)`. */
  function SortByVolume(s: seq<Stock>): (r: seq<Stock>)
    ensures |r| == |s|
    ensures multiset(r) == multiset(s)
    ensures NonIncreasing(r)
  {
    if s == [] then []
    else
      assert s == [s[0]] + s[1..];
      InsertByVolumeSorted(s[0], SortByVolume(s[1..]));
      InsertByVolume(s[0], SortByVolume(s[1..]))
  }

  /** Stability: the stocks of any one volume appear in the sorted list exactly as they
      appear in the input. */
  lemma {:induction false} SortByVolumeStable(s: seq<Stock>, v: nat)
    ensures WithVolume(SortByVolume(s), v) == WithVolume(s, v)
  {
    if s != [] {
      SortByVolumeStable(s[1..], v);
      InsertByVolumeStable(s[0], SortByVolume(s[1..]), v);
      WithVolumeAppend([s[0]], SortByVolume(s[1..]), v);
      WithVolumeAppend([s[0]], s[1..], v);
      assert s == [s[0]] + s[1..];
    }
  }

  /** Every stock left out of a prefix of a non-increasing list has at most the volume
      of every stock kept. */
  lemma PrefixDominates(sorted: seq<Stock>, k: nat)
    requires NonIncreasing(sorted) && k <= |sorted|
    ensures |sorted[..k]| == k
    ensures NonIncreasing(sorted[..k])
    ensures multiset(sorted[..k]) <= multiset(sorted)
    ensures forall x, i :: x in multiset(sorted) - multiset(sorted[..k]) && 0 <= i < k ==>
              x.volume <= sorted[i].volume
  {
    assert sorted == sorted[..k] + sorted[k..];
    assert multiset(sorted) == multiset(sorted[..k]) + multiset(sorted[k..]);
    assert multiset(sorted) - multiset(sorted[..k]) == multiset(sorted[k..]);
    forall x, i | x in multiset(sorted[k..]) && 0 <= i < k ensures x.volume <= sorted[i].volume {
      var j :| 0 <= j < |sorted[k..]| && sorted[k..][j] == x;
      assert sorted[k + j] == x;
    }
  }

  /** The top-ten endpoint applied to the freshly generated list `stocks`. */
  function TopTen(stocks: seq<Stock>): (r: seq<Stock>)
    ensures |r| == Min(10, |stocks|)
    ensures NonIncreasing(r)
    ensures multiset(r) <= multiset(stocks)
    ensures forall x, i :: x in multiset(stocks) - multiset(r) && 0 <= i < |r| ==> x.volume <= r[i].volume
  {
    var sorted := SortByVolume(stocks);
    PrefixDominates(sorted, Min(10, |stocks|));
    sorted[..Min(10, |stocks|)]
  }

  lemma {:induction false} WithVolumePrefix(s: seq<Stock>, k: nat, v: nat)
    requires k <= |s|
    ensures WithVolume(s[..k], v) <= WithVolume(s, v)
  {
    assert s == s[..k] + s[k..];
    WithVolumeAppend(s[..k], s[k..], v);
  }

  /** Stocks of equal volume keep their input order in the top ten: for each volume the
      selected stocks are a prefix of the input's stocks of that volume. */
  lemma TopTenStable(stocks: seq<Stock>, v: nat)
    ensures WithVolume(TopTen(stocks), v) <= WithVolume(stocks, v)
  {
    var sorted := SortByVolume(stocks);
    WithVolumePrefix(sorted, Min(10, |stocks|), v);
    SortByVolumeStable(stocks, v);
  }

  // ---------------------------------------------------------------------------
  // Trend and risk

  datatype Trend = Upward | Downward | Sideways
  datatype Risk = Low | Medium | High

  function TrendName(t: Trend): string
  {
    match t
    case Upward => "Upward"
    case Downward => "Downward"
    case Sideways => "Sideways"
  }

  function RiskName(k: Risk): string
  {
    match k
    case Low => "Low"
    case Medium => "Medium"
    case High => "High"
  }

  /** `trend.lower()` and `risk.lower()` as used in the rule-based text. */
  function TrendLower(t: Trend): string
  {
    match t
    case Upward => "upward"
    case Downward => "downward"
    case Sideways => "sideways"
  }

  function RiskLower(k: Risk): string
  {
    match k
    case Low => "low"
    case Medium => "medium"
    case High => "high"
  }

  /** Trend from the percentage change over the whole history; exactly +10 or -10 is sideways. */
  function ClassifyTrend(priceChange: real): (t: Trend)
    ensures t == Upward <==> priceChange > 10.0
    ensures t == Downward <==> priceChange < -10.0
    ensures t == Sideways <==> -10.0 <= priceChange <= 10.0
  {
    if priceChange > 10.0 then Upward
    else if priceChange < -10.0 then Downward
    else Sideways
  }

  /** Risk from the volatility in percent; exactly 5 is medium, exactly 2.5 is low. */
  function ClassifyRisk(volatility: real): (k: Risk)
    ensures k == High <==> volatility > 5.0
    ensures k == Medium <==> 2.5 < volatility <= 5.0
    ensures k == Low <==> volatility <= 2.5
  {
    if volatility > 5.0 then High
    else if volatility > 2.5 then Medium
    else Low
  }

  function TrendRank(t: Trend): nat
  {
    match t
    case Downward => 0
    case Sideways => 1
    case Upward => 2
  }

  function RiskRank(k: Risk): nat
  {
    match k
    case Low => 0
    case Medium => 1
    case High => 2
  }

  /** Both classifiers are monotone: a larger input never gives a lower class. */
  lemma ClassifiersMonotone(a: real, b: real)
    requires a <= b
    ensures TrendRank(ClassifyTrend(a)) <= TrendRank(ClassifyTrend(b))
    ensures RiskRank(ClassifyRisk(a)) <= RiskRank(ClassifyRisk(b))
  {
  }

  function Prices(history: seq<HistoryPoint>): (p: seq<real>)
    ensures |p| == |history|
    ensures forall i :: 0 <= i < |p| ==> p[i] == history[i].price
  {
    seq(|history|, i requires 0 <= i < |history| => history[i].price)
  }

  function Sum(xs: seq<real>): real
  {
    if xs == [] then 0.0 else xs[0] + Sum(xs[1..])
  }

  function Mean(xs: seq<real>): real
    requires xs != []
  {
    Sum(xs) / (|xs| as real)
  }

  /** The sum of the squared deviations of `xs` from `m`. */
  function SquaredDeviations(xs: seq<real>, m: real): (r: real)
    ensures r >= 0.0
  {
    if xs == [] then 0.0
    else
      SquareNonNegative(xs[0] - m);
      (xs[0] - m) * (xs[0] - m) + SquaredDeviations(xs[1..], m)
  }

  lemma SquareNonNegative(d: real)
    ensures d * d >= 0.0
  {
    if d < 0.0 {
      assert d * d == (-d) * (-d);
    }
  }

  /** The population variance, as the backend computes it (dividing by n). */
  function Variance(xs: seq<real>): (r: real)
    requires xs != []
    ensures r >= 0.0
  {
    SquaredDeviations(xs, Mean(xs)) / (|xs| as real)
  }

  /** The outcome of `analyze_price_trend`: the short two-value return, the four-value
      return, or the ZeroDivisionError a zero first price or a zero mean raises. */
  datatype PriceTrend =
    | Short(trend: Trend, risk: Risk)
    | Full(trend: Trend, risk: Risk, priceChange: real, volatility: real)
    | ZeroDivision

  function PriceChange(prices: seq<real>): real
    requires prices != [] && prices[0] != 0.0
  {
    (prices[|prices| - 1] - prices[0]) / prices[0] * 100.0
  }

  /** `sqrt` stands for Python's `** 0.5`, which the model does not define. */
  function AnalyzePriceTrend(history: seq<HistoryPoint>, sqrt: real -> real): (r: PriceTrend)
    ensures r.Short? <==> |history| < 2
    ensures r.Short? ==> r == Short(Sideways, Medium)
    ensures r.ZeroDivision? <==> |history| >= 2 && (history[0].price == 0.0 || Mean(Prices(history)) == 0.0)
    ensures r.Full? ==> r.trend == ClassifyTrend(r.priceChange) && r.risk == ClassifyRisk(r.volatility)
    ensures r.Full? ==>
              && |history| >= 2 && history[0].price != 0.0 && Mean(Prices(history)) != 0.0
              && r.priceChange == PriceChange(Prices(history))
              && r.volatility == sqrt(Variance(Prices(history))) / Mean(Prices(history)) * 100.0
  {
    if |history| < 2 then Short(Sideways, Medium)
    else
      var prices := Prices(history);
      if prices[0] == 0.0 then ZeroDivision
      else
        var priceChange := PriceChange(prices);
        var avg := Mean(prices);
        if avg == 0.0 then ZeroDivision
        else
          var volatility := sqrt(Variance(prices)) / avg * 100.0;
          Full(ClassifyTrend(priceChange), ClassifyRisk(volatility), priceChange, volatility)
  }

  /** With a positive first price the trend depends only on the two end points:
      upward iff the last price exceeds 110% of the first, downward iff it is below 90%. */
  lemma TrendFromEndpoints(history: seq<HistoryPoint>, sqrt: real -> real)
    requires |history| >= 2 && history[0].price > 0.0
    requires Mean(Prices(history)) != 0.0
    ensures AnalyzePriceTrend(history, sqrt).Full?
    ensures AnalyzePriceTrend(history, sqrt).trend == Upward
            <==> history[|history| - 1].price > 1.1 * history[0].price
    ensures AnalyzePriceTrend(history, sqrt).trend == Downward
            <==> history[|history| - 1].price < 0.9 * history[0].price
  {
    var prices := Prices(history);
    ChangeFromEndpoints(prices[0], prices[|prices| - 1]);
    assert AnalyzePriceTrend(history, sqrt).trend == ClassifyTrend(PriceChange(prices));
  }

  lemma ChangeFromEndpoints(first: real, last: real)
    requires first > 0.0
    ensures (last - first) / first * 100.0 > 10.0 <==> last > 1.1 * first
    ensures (last - first) / first * 100.0 < -10.0 <==> last < 0.9 * first
  {
    var q := (last - first) / first;
    assert q * first == last - first;
    ScaleByPositive(q, 0.1, first);
    ScaleByPositive(-0.1, q, first);
  }

  /** For a positive `c`, `a < b` iff `a * c < b * c`. */
  lemma ScaleByPositive(a: real, b: real, c: real)
    requires c > 0.0
    ensures a < b <==> a * c < b * c
  {
    if a < b {
      assert (b - a) * c > 0.0;
    } else {
      assert (a - b) * c >= 0.0;
    }
  }

  lemma CancelFactor(n: real, p: real)
    requires n > 0.0
    ensures n * p / n == p
  {
  }

  lemma {:induction false} SumConstant(xs: seq<real>, p: real)
    requires forall i :: 0 <= i < |xs| ==> xs[i] == p
    ensures Sum(xs) == (|xs| as real) * p
  {
    if xs != [] {
      SumConstant(xs[1..], p);
    }
  }

  lemma {:induction false} SquaredDeviationsConstant(xs: seq<real>, p: real)
    requires forall i :: 0 <= i < |xs| ==> xs[i] == p
    ensures SquaredDeviations(xs, p) == 0.0
  {
    if xs != [] {
      SquaredDeviationsConstant(xs[1..], p);
    }
  }

  /** A flat history (every price the same, non-zero) is sideways and low-risk with zero
      change, whenever the square root maps zero to zero. */
  lemma FlatHistory(history: seq<HistoryPoint>, p: real, sqrt: real -> real)
    requires |history| >= 2 && p != 0.0 && sqrt(0.0) == 0.0
    requires forall i :: 0 <= i < |history| ==> history[i].price == p
    ensures AnalyzePriceTrend(history, sqrt) == Full(Sideways, Low, 0.0, 0.0)
  {
    var prices := Prices(history);
    SumConstant(prices, p);
    var n := |prices| as real;
    var total := Sum(prices);
    assert total == n * p;
    CancelFactor(n, p);
    calc {
      Mean(prices);
      total / n;
      n * p / n;
      p;
    }
    SquaredDeviationsConstant(prices, p);
    assert Variance(prices) == 0.0;
  }

  // ---------------------------------------------------------------------------
  // Suggestion tables

  /** The part of a suggestion before " - ". */
  datatype Action = LongTerm | ShortTermWatch | Avoid

  datatype Suggestion = Suggestion(action: Action, reason: string)

  function ActionLabel(a: Action): string
  {
    match a
    case LongTerm => "Long-term investment"
    case ShortTermWatch => "Short-term watch"
    case Avoid => "Avoid"
  }

  function SuggestionText(s: Suggestion): string
  {
    ActionLabel(s.action) + " - " + s.reason
  }

  /** The rule-based table of `get_huggingface_analysis`, tried in order. */
  function FallbackSuggestion(t: Trend, k: Risk): (s: Suggestion)
    ensures s.action == LongTerm <==> (t == Upward && k == Low) || t == Sideways
    ensures s.action == Avoid <==> t == Downward && k == High
    ensures s.action == ShortTermWatch <==> (t == Upward && k != Low) || (t == Downward && k != High)
  {
    if t == Upward && k == Low then
      Suggestion(LongTerm, "Consider adding to portfolio for steady growth")
    else if t == Upward && k in {Medium, High} then
      Suggestion(ShortTermWatch, "Monitor closely, suitable for risk-tolerant investors")
    else if t == Downward && k == High then
      Suggestion(Avoid, "Wait for market stabilization before considering entry")
    else if t == Downward then
      Suggestion(ShortTermWatch, "Research company fundamentals before investing")
    else
      assert t == Sideways by { assert t == Upward ==> k.Low? || k.Medium? || k.High?; }
      Suggestion(LongTerm, "Suitable for conservative portfolios seeking stability")
  }

  /** The table `analyze_stock` applies when the analysis came back as text. */
  function SecondarySuggestion(t: Trend, k: Risk): (s: Suggestion)
    ensures s.action == LongTerm <==> t == Upward && k == Low
    ensures s.action == Avoid <==> t == Downward && k == High
    ensures s.action == ShortTermWatch <==> !(t == Upward && k == Low) && !(t == Downward && k == High)
  {
    if t == Upward && k == Low then
      Suggestion(LongTerm, "Strong fundamentals with stable growth")
    else if t == Upward then
      Suggestion(ShortTermWatch, "Growth with volatility, monitor closely")
    else if t == Downward && k == High then
      Suggestion(Avoid, "High risk and declining trend")
    else
      Suggestion(ShortTermWatch, "Evaluate based on individual risk tolerance")
  }

  /** The two tables recommend the same kind of action exactly when the trend is not sideways. */
  lemma TablesAgreeUnlessSideways(t: Trend, k: Risk)
    ensures FallbackSuggestion(t, k).action == SecondarySuggestion(t, k).action <==> t != Sideways
  {
  }

  /** The fallback table gives a different suggestion text to each of its five cases. */
  lemma FallbackCasesDistinct(t1: Trend, k1: Risk, t2: Trend, k2: Risk)
    ensures FallbackSuggestion(t1, k1) == FallbackSuggestion(t2, k2) <==>
              || (t1 == t2 == Sideways)
              || (t1 == t2 == Upward && (k1 == Low) == (k2 == Low))
              || (t1 == t2 == Downward && (k1 == High) == (k2 == High))
  {
  }

  // ---------------------------------------------------------------------------
  // Analysis

  /** What `get_huggingface_analysis` returns: the model's text, or the rule-based
      sentences with a suggestion. */
  datatype AnalysisResult = AiText(text: string) | RuleBased(analysis: string, suggestion: Suggestion)

  function Join(parts: seq<string>, sep: string): string
  {
    if parts == [] then ""
    else if |parts| == 1 then parts[0]
    else parts[0] + sep + Join(parts[1..], sep)
  }

  /** The two sentences of the rule-based analysis. `changeText` is the absolute price
      change already formatted with one decimal. */
  function FallbackSentences(ticker: string, t: Trend, k: Risk, changeText: string): (parts: seq<string>)
    ensures |parts| == 2
    ensures parts[0] == "Based on 6 months of historical data, " + ticker + " shows a "
                        + TrendLower(t) + " trend with " + RiskLower(k) + " volatility."
  {
    var opening := "Based on 6 months of historical data, " + ticker + " shows a "
                   + TrendLower(t) + " trend with " + RiskLower(k) + " volatility.";
    var detail :=
      if t == Upward && k == Low then
        "The stock has gained " + changeText + "% with stable growth, indicating strong fundamentals."
      else if t == Upward && (k == Medium || k == High) then
        "While showing " + changeText + "% gains, the high volatility suggests caution."
      else if t == Downward && k == High then
        "The stock has declined " + changeText + "% with significant volatility, indicating market uncertainty."
      else if t == Downward then
        "A decline of " + changeText + "% may present a buying opportunity if fundamentals are strong."
      else
        "The stock has been relatively stable with " + RiskLower(k) + " fluctuations.";
    [opening, detail]
  }

  /** `aiText` is the generated text when a token is configured and the model answered
      with a non-empty list; otherwise the rule-based path runs. `formatPct` stands for
      Python's one-decimal formatting. */
  function HuggingFaceAnalysis(ticker: string, t: Trend, k: Risk, priceChange: real,
                               aiText: Option<string>, formatPct: real -> string): (r: AnalysisResult)
    ensures aiText.Some? ==> r == AiText(aiText.value)
    ensures aiText.None? ==> r.RuleBased? && r.suggestion == FallbackSuggestion(t, k)
  {
    match aiText
    case Some(text) => AiText(text)
    case None =>
      var magnitude := if priceChange < 0.0 then -priceChange else priceChange;
      RuleBased(Join(FallbackSentences(ticker, t, k, formatPct(magnitude)), " "), FallbackSuggestion(t, k))
  }

  const Disclaimer := "This is AI-generated analysis and not financial advice. Always conduct your own research and consult with financial advisors before making investment decisions."

  /** The analyze endpoint. `history` stands for the prices the endpoint regenerates. */
  function AnalyzeStock(ticker: string, history: seq<HistoryPoint>, sqrt: real -> real,
                        aiText: Option<string>, formatPct: real -> string): (r: Result<Analysis>)
    ensures ticker !in StockData ==> r == Err(NotFound)
    ensures ticker in StockData && |history| < 2 ==> r == Err(InternalError)
    ensures r.Ok? ==> |history| >= 2 && r.value.ticker == ticker && r.value.disclaimer == Disclaimer
    ensures ticker in StockData && AnalyzePriceTrend(history, sqrt).ZeroDivision? ==> r == Err(InternalError)
    ensures r.Ok? <==> ticker in StockData && AnalyzePriceTrend(history, sqrt).Full?
    ensures r.Ok? ==> r.value.trend in {"Upward", "Downward", "Sideways"}
    ensures r.Ok? ==> r.value.riskLevel in {"Low", "Medium", "High"}
    ensures r.Ok? && aiText.Some? ==> r.value.analysis == aiText.value
    ensures r.Ok? ==>
              var p := AnalyzePriceTrend(history, sqrt);
              && p.Full?
              && r.value.trend == TrendName(p.trend)
              && r.value.riskLevel == RiskName(p.risk)
              && r.value.suggestedAction == SuggestionText(
                   if aiText.Some? then SecondarySuggestion(p.trend, p.risk) else FallbackSuggestion(p.trend, p.risk))
    ensures r.Ok? && aiText.None? ==>
              var p := AnalyzePriceTrend(history, sqrt);
              && p.Full?
              && r.value.analysis == Join(FallbackSentences(ticker, p.trend, p.risk,
                   formatPct(if p.priceChange < 0.0 then -p.priceChange else p.priceChange)), " ")
  {
    match GetStockHistory(ticker, history)
    case Err(e) => Err(e)
    case Ok(payload) =>
      match AnalyzePriceTrend(payload.history, sqrt)
      case Short(_, _) => Err(InternalError)
      case ZeroDivision => Err(InternalError)
      case Full(t, k, priceChange, _) =>
        var (analysis, suggestion) :=
          match HuggingFaceAnalysis(ticker, t, k, priceChange, aiText, formatPct)
          case RuleBased(a, s) => (a, s)
          case AiText(a) => (a, SecondarySuggestion(t, k));
        Ok(Analysis(ticker, TrendName(t), RiskName(k), SuggestionText(suggestion), analysis, Disclaimer))
  }

  /** Both endpoints reject a ticker outside the fifteen known keys with 404; the check
      is case-sensitive. */
  lemma UnknownTickerRejected(ticker: string, history: seq<HistoryPoint>, sqrt: real -> real,
                              aiText: Option<string>, formatPct: real -> string)
    requires ticker !in StockData
    ensures GetStockHistory(ticker, history) == Err(NotFound)
    ensures AnalyzeStock(ticker, history, sqrt, aiText, formatPct) == Err(NotFound)
  {
  }
}

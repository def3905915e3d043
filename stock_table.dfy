/** The ranked table of the top-volume list and its volume abbreviation. */
module StockTable {
  import opened Domain
  import opened Display

  // ---------------------------------------------------------------------------
  // Decimal digits

  predicate IsDigit(c: char)
  {
    '0' <= c <= '9'
  }

  predicate AllDigits(s: string)
  {
    forall i :: 0 <= i < |s| ==> IsDigit(s[i])
  }

  function DigitChar(d: nat): (c: char)
    requires d < 10
    ensures IsDigit(c)
  {
    ('0' as int + d) as char
  }

  function DigitValue(c: char): (d: nat)
    requires IsDigit(c)
    ensures d < 10
  {
    c as int - '0' as int
  }

  /** JavaScript's `toString()` of a non-negative integer: its decimal digits, with no
      leading zero. */
  function DecimalString(n: nat): (s: string)
    ensures |s| >= 1
    ensures AllDigits(s)
    ensures s[0] == '0' ==> n == 0
    decreases n
  {
    if n < 10 then [DigitChar(n)] else DecimalString(n / 10) + [DigitChar(n % 10)]
  }

  /** Reads a string of decimal digits back as a number. */
  function ParseDecimal(s: string): nat
    requires AllDigits(s)
  {
    if s == [] then 0 else ParseDecimal(s[..|s| - 1]) * 10 + DigitValue(s[|s| - 1])
  }

  lemma {:induction false} DecimalStringRoundTrip(n: nat)
    ensures ParseDecimal(DecimalString(n)) == n
    decreases n
  {
    var s := DecimalString(n);
    if n >= 10 {
      DecimalStringRoundTrip(n / 10);
      assert s[..|s| - 1] == DecimalString(n / 10);
    }
  }

  /** `x.toFixed(1)` for a non-negative `x` that is exactly `tenths` tenths. */
  function OneDecimal(tenths: nat): (s: string)
    ensures |s| >= 3 && s[|s| - 2] == '.'
    ensures AllDigits(s[..|s| - 2]) && IsDigit(s[|s| - 1])
  {
    DecimalString(tenths / 10) + "." + [DigitChar(tenths % 10)]
  }

  /** Reads `digits.d` back as a number of tenths. */
  function ParseOneDecimal(s: string): Option<nat>
  {
    if |s| >= 3 && s[|s| - 2] == '.' && AllDigits(s[..|s| - 2]) && IsDigit(s[|s| - 1]) then
      Some(ParseDecimal(s[..|s| - 2]) * 10 + DigitValue(s[|s| - 1]))
    else None
  }

  lemma OneDecimalRoundTrip(tenths: nat)
    ensures ParseOneDecimal(OneDecimal(tenths)) == Some(tenths)
  {
    var s := OneDecimal(tenths);
    assert s[..|s| - 2] == DecimalString(tenths / 10);
    DecimalStringRoundTrip(tenths / 10);
  }

  // ---------------------------------------------------------------------------
  // Volume

  /** `volume / unit` rounded to the nearest tenth, a tie going up: the result, read as
      tenths, is within half a tenth of the exact quotient. */
  function RoundTenths(volume: nat, unit: nat): (n: nat)
    requires unit > 0
    ensures 2 * unit * n <= 20 * volume + unit < 2 * unit * n + 2 * unit
  {
    (20 * volume + unit) / (2 * unit)
  }

  /** The same bound stated on real numbers: `n / 10` is within 0.05 of `volume / unit`. */
  lemma RoundTenthsClose(volume: nat, unit: nat)
    requires unit > 0
    ensures var d := (RoundTenths(volume, unit) as real) / 10.0 - (volume as real) / (unit as real);
            -0.05 < d <= 0.05
  {
    var n := RoundTenths(volume, unit);
    var m, q := 2 * unit, 20 * volume + unit;
    assert q == m * n + q % m && 0 <= q % m < m;
    var u, nr, vr := unit as real, n as real, volume as real;
    BoundInReals(volume, unit, n, q % m);
    var d := nr / 10.0 - vr / u;
    CloseFromScaled(d, u, nr, vr);
  }

  lemma CloseFromScaled(d: real, u: real, nr: real, vr: real)
    requires u > 0.0
    requires d == nr / 10.0 - vr / u
    requires -u < 2.0 * u * nr - 20.0 * vr <= u
    ensures -0.05 < d <= 0.05
  {
    ScaleDifference(d, u, nr, vr);
    ScaledBound(d, u);
  }

  lemma CastProduct(x: nat, y: nat)
    ensures ((x * y) as real) == (x as real) * (y as real)
  {
  }

  lemma BoundInReals(volume: nat, unit: nat, n: nat, r: nat)
    requires r < 2 * unit
    requires 20 * volume + unit == (2 * unit) * n + r
    ensures -(unit as real) < 2.0 * (unit as real) * (n as real) - 20.0 * (volume as real) <= unit as real
  {
    CastProduct(2 * unit, n);
  }

  lemma ScaleDifference(d: real, u: real, nr: real, vr: real)
    requires u > 0.0
    requires d == nr / 10.0 - vr / u
    ensures d * (20.0 * u) == 2.0 * u * nr - 20.0 * vr
  {
    var a, b := nr / 10.0, vr / u;
    assert a * (20.0 * u) == 2.0 * u * nr;
    assert b * u == vr;
    assert b * (20.0 * u) == 20.0 * vr;
    assert (a - b) * (20.0 * u) == a * (20.0 * u) - b * (20.0 * u);
  }

  lemma ScaledBound(d: real, u: real)
    requires u > 0.0 && -u < d * (20.0 * u) <= u
    ensures -0.05 < d <= 0.05
  {
  }

  /** `formatVolume`: millions with one decimal and "M", thousands with one decimal and
      "K", smaller volumes as plain digits. */
  function FormatVolume(volume: nat): (s: string)
    ensures |s| >= 1
    ensures s[|s| - 1] == 'M' <==> volume >= 1000000
    ensures s[|s| - 1] == 'K' <==> 1000 <= volume < 1000000
    ensures volume < 1000 ==> AllDigits(s)
  {
    if volume >= 1000000 then OneDecimal(RoundTenths(volume, 1000000)) + "M"
    else if volume >= 1000 then OneDecimal(RoundTenths(volume, 1000)) + "K"
    else DecimalString(volume)
  }

  /** Reading the shown number back gives the rounded quotient in the M and K tiers
      and the volume itself below a thousand. */
  lemma FormatVolumeReadsBack(volume: nat)
    ensures var s := FormatVolume(volume);
            && (volume >= 1000000 ==> ParseOneDecimal(s[..|s| - 1]) == Some(RoundTenths(volume, 1000000)))
            && (1000 <= volume < 1000000 ==> ParseOneDecimal(s[..|s| - 1]) == Some(RoundTenths(volume, 1000)))
            && (volume < 1000 ==> s == DecimalString(volume) && ParseDecimal(s) == volume)
  {
    var s := FormatVolume(volume);
    if volume >= 1000000 {
      assert s[..|s| - 1] == OneDecimal(RoundTenths(volume, 1000000));
      OneDecimalRoundTrip(RoundTenths(volume, 1000000));
    } else if volume >= 1000 {
      assert s[..|s| - 1] == OneDecimal(RoundTenths(volume, 1000));
      OneDecimalRoundTrip(RoundTenths(volume, 1000));
    } else {
      DecimalStringRoundTrip(volume);
    }
  }

  /** Just below a million the K tier rounds up to "1000.0K" instead of switching to M. */
  lemma ThousandKAtTop(volume: nat)
    requires 999950 <= volume < 1000000
    ensures FormatVolume(volume) == "1000.0K"
  {
    assert RoundTenths(volume, 1000) == 10000;
    assert DecimalString(1) == "1";
    assert DecimalString(10) == "10";
    assert DecimalString(100) == "100";
    assert DecimalString(1000) == "1000";
  }

  // ---------------------------------------------------------------------------
  // Rows

  /** One rendered row; `selects` is the ticker its action hands to the parent. Price and
      change are kept as numbers (their two-decimal text is not modelled). */
  datatype Row = Row(
    rank: nat,
    ticker: string,
    company: string,
    price: real,
    change: real,
    changeCell: ChangeCell,
    volume: string,
    sector: string,
    selects: string)

  function RowOf(index: nat, stock: Stock): Row
  {
    Row(index + 1, stock.ticker, stock.company, stock.price, stock.change,
        ChangeCellOf(stock.change), FormatVolume(stock.volume), stock.sector, stock.ticker)
  }

  /** The table body: one row per stock, in the order received, ranked from 1. */
  function Rows(stocks: seq<Stock>): (rows: seq<Row>)
    ensures |rows| == |stocks|
    ensures forall i :: 0 <= i < |rows| ==> rows[i] == RowOf(i, stocks[i])
  {
    seq(|stocks|, i requires 0 <= i < |stocks| => RowOf(i, stocks[i]))
  }

  /** Ranks run 1, 2, ..., n down the table, the tickers appear in input order and each
      row's action selects exactly its own stock. */
  lemma RowsFollowInput(stocks: seq<Stock>)
    ensures var rows := Rows(stocks);
            && (forall i :: 0 <= i < |rows| ==> rows[i].rank == i + 1)
            && (forall i :: 0 <= i < |rows| ==> rows[i].ticker == rows[i].selects == stocks[i].ticker)
            && (forall i, j :: 0 <= i < j < |rows| ==> rows[i].rank < rows[j].rank)
            && (forall i :: 0 <= i < |rows| ==>
                  (rows[i].changeCell.tone == Positive <==> stocks[i].change >= 0.0))
  {
  }
}

/**
 * The technical-indicator library: rolling and exponential means, RSI,
 * MACD, Bollinger bands, VWAP, true range / ATR and the stochastic
 * oscillator. Each indicator is stated at one index of the series; a
 * pandas NaN (the warm-up of a rolling window, or 0/0) is `None`.
 */
module Indicators {
  import opened Wrappers
  import opened Series
  import opened Base

  predicate AllDefined(xs: seq<Option<real>>)
  {
    forall k :: 0 <= k < |xs| ==> xs[k].Some?
  }

  function Values(xs: seq<Option<real>>): (r: seq<real>)
    requires AllDefined(xs)
    ensures |r| == |xs| && forall k :: 0 <= k < |xs| ==> r[k] == xs[k].value
  {
    seq(|xs|, k requires 0 <= k < |xs| => xs[k].value)
  }

  function Lift(data: seq<real>): (r: seq<Option<real>>)
    ensures |r| == |data| && forall k :: 0 <= k < |data| ==> r[k] == Some(data[k])
  {
    seq(|data|, k requires 0 <= k < |data| => Some(data[k]))
  }

  /**
   * `rolling(window=period).mean()` at index i: NaN until the window is
   * full, and NaN while any value in the window is NaN.
   */
  function RollingMeanAt(xs: seq<Option<real>>, period: nat, i: nat): Option<real>
    requires period >= 1 && i < |xs|
  {
    if i + 1 < period then None
    else
      var w := xs[i + 1 - period .. i + 1];
      if AllDefined(w) then Some(Mean(Values(w))) else None
  }

  lemma MulNonNeg(a: real, d: real)
    requires a >= 0.0 && d >= 0.0
    ensures a * d >= 0.0
  {
  }

  lemma RatioInUnit(a: real, b: real)
    requires 0.0 <= a <= b && b > 0.0
    ensures 0.0 <= a / b <= 1.0
  {
    assert a / b * b == a;
  }

  // ---------------------------------------------------------------- SMA

  /** `calculate_sma` at index i. */
  function SmaAt(data: seq<real>, period: nat, i: nat): Option<real>
    requires period >= 1 && i < |data|
  {
    RollingMeanAt(Lift(data), period, i)
  }

  /** `calculate_sma`: the whole series. */
  function Sma(data: seq<real>, period: nat): (r: seq<Option<real>>)
    requires period >= 1
    ensures |r| == |data|
  {
    seq(|data|, i requires 0 <= i < |data| => SmaAt(data, period, i))
  }

  /** The SMA is undefined before index period-1 and is then the mean of the last `period` values. */
  lemma SmaIsWindowMean(data: seq<real>, period: nat, i: nat)
    requires period >= 1 && i < |data|
    ensures SmaAt(data, period, i).None? <==> i + 1 < period
    ensures i + 1 >= period ==> SmaAt(data, period, i) == Some(Mean(data[i + 1 - period .. i + 1]))
  {
    if i + 1 >= period {
      var w := Lift(data)[i + 1 - period .. i + 1];
      assert AllDefined(w);
      assert Values(w) == data[i + 1 - period .. i + 1];
    }
  }

  /** The SMA lies between the smallest and the largest value of its window. */
  lemma SmaWithinWindow(data: seq<real>, period: nat, i: nat)
    requires period >= 1 && period <= i + 1 < |data| + 1
    ensures SmaAt(data, period, i).Some?
    ensures Min(data[i + 1 - period .. i + 1]) <= SmaAt(data, period, i).value <= Max(data[i + 1 - period .. i + 1])
  {
    SmaIsWindowMean(data, period, i);
    var w := data[i + 1 - period .. i + 1];
    MeanBounds(w, Min(w), Max(w));
  }

  /** The SMA at i depends on no value after i. */
  lemma SmaNoLookAhead(a: seq<real>, b: seq<real>, period: nat, i: nat)
    requires period >= 1 && i < |a| && i < |b| && a[..i + 1] == b[..i + 1]
    ensures SmaAt(a, period, i) == SmaAt(b, period, i)
  {
    SmaIsWindowMean(a, period, i);
    SmaIsWindowMean(b, period, i);
    if i + 1 >= period {
      assert a[i + 1 - period .. i + 1] == a[..i + 1][i + 1 - period ..];
      assert b[i + 1 - period .. i + 1] == b[..i + 1][i + 1 - period ..];
    }
  }

  /** Over positive data a defined SMA is positive. */
  lemma SmaPositive(data: seq<real>, period: nat, i: nat)
    requires period >= 1 && i < |data| && SmaAt(data, period, i).Some?
    requires forall k :: 0 <= k < |data| ==> data[k] > 0.0
    ensures SmaAt(data, period, i).value > 0.0
  {
    SmaIsWindowMean(data, period, i);
    SmaWithinWindow(data, period, i);
  }

  /** Over a flat series a defined SMA is that flat value. */
  lemma SmaOfConstant(data: seq<real>, c: real, period: nat, i: nat)
    requires period >= 1 && i < |data| && i + 1 >= period
    requires forall k :: 0 <= k < |data| ==> data[k] == c
    ensures SmaAt(data, period, i) == Some(c)
  {
    SmaIsWindowMean(data, period, i);
    MeanBounds(data[i + 1 - period .. i + 1], c, c);
  }

  // ---------------------------------------------------------------- EMA

  /** The smoothing factor of `ewm(span=span)` with a real span of at least 1. */
  function Alpha(span: real): (a: real)
    requires span >= 1.0
    ensures 0.0 < a <= 1.0
  {
    2.0 / (span + 1.0)
  }

  /**
   * `calculate_ema` (`ewm(span=span, adjust=False).mean()`, any real span of at least 1) at index i:
   * seeded with the first value, defined from index 0.
   */
  function EmaAt(data: seq<real>, span: real, i: nat): real
    requires span >= 1.0 && i < |data|
  {
    if i == 0 then data[0]
    else Alpha(span) * data[i] + (1.0 - Alpha(span)) * EmaAt(data, span, i - 1)
  }

  /** `calculate_ema`: the whole series. */
  function Ema(data: seq<real>, span: real): (r: seq<real>)
    requires span >= 1.0
    ensures |r| == |data|
  {
    seq(|data|, i requires 0 <= i < |data| => EmaAt(data, span, i))
  }

  /** A convex combination of two values in [lo, hi] stays in [lo, hi]. */
  lemma ConvexWithin(a: real, x: real, y: real, lo: real, hi: real)
    requires 0.0 <= a <= 1.0 && lo <= x <= hi && lo <= y <= hi
    ensures lo <= a * x + (1.0 - a) * y <= hi
  {
    var b := 1.0 - a;
    MulNonNeg(a, x - lo);
    MulNonNeg(b, y - lo);
    MulNonNeg(a, hi - x);
    MulNonNeg(b, hi - y);
    assert a * x + b * y - lo == a * (x - lo) + b * (y - lo);
    assert hi - (a * x + b * y) == a * (hi - x) + b * (hi - y);
  }

  /** The EMA at i lies between any bounds of the values up to i. */
  lemma {:induction false} EmaWithin(data: seq<real>, span: real, i: nat, lo: real, hi: real)
    requires span >= 1.0 && i < |data| && Within(data[..i + 1], lo, hi)
    ensures lo <= EmaAt(data, span, i) <= hi
  {
    assert data[..i + 1][i] == data[i];
    if i > 0 {
      assert Within(data[..i], lo, hi) by {
        forall k | 0 <= k < i ensures lo <= data[..i][k] <= hi {
          assert data[..i][k] == data[..i + 1][k];
        }
      }
      assert data[..i] == data[..(i - 1) + 1];
      EmaWithin(data, span, i - 1, lo, hi);
      ConvexWithin(Alpha(span), data[i], EmaAt(data, span, i - 1), lo, hi);
    }
  }

  /** The EMA at i depends on no value after i. */
  lemma {:induction false} EmaNoLookAhead(a: seq<real>, b: seq<real>, span: real, i: nat)
    requires span >= 1.0 && i < |a| && i < |b| && a[..i + 1] == b[..i + 1]
    ensures EmaAt(a, span, i) == EmaAt(b, span, i)
  {
    assert a[i] == a[..i + 1][i] && b[i] == b[..i + 1][i];
    if i > 0 {
      assert a[..i] == a[..i + 1][..i] && b[..i] == b[..i + 1][..i];
      EmaNoLookAhead(a, b, span, i - 1);
    }
  }

  // ---------------------------------------------------------------- RSI

  /** `data.diff()`, with the NaN at index 0 read as 0 by the `where` that clips it. */
  function Delta(data: seq<real>, i: nat): real
    requires i < |data|
  {
    if i == 0 then 0.0 else data[i] - data[i - 1]
  }

  function Gains(data: seq<real>): (r: seq<real>)
    ensures |r| == |data|
    ensures forall i :: 0 <= i < |data| ==> r[i] == (if Delta(data, i) > 0.0 then Delta(data, i) else 0.0)
  {
    seq(|data|, i requires 0 <= i < |data| => if Delta(data, i) > 0.0 then Delta(data, i) else 0.0)
  }

  function Losses(data: seq<real>): (r: seq<real>)
    ensures |r| == |data|
    ensures forall i :: 0 <= i < |data| ==> r[i] == (if Delta(data, i) < 0.0 then -Delta(data, i) else 0.0)
  {
    seq(|data|, i requires 0 <= i < |data| => if Delta(data, i) < 0.0 then -Delta(data, i) else 0.0)
  }

  /** The simple average gain and loss over the `period` differences ending at i. */
  function AverageGain(data: seq<real>, period: nat, i: nat): real
    requires 1 <= period <= i + 1 <= |data|
  {
    Mean(Gains(data)[i + 1 - period .. i + 1])
  }

  function AverageLoss(data: seq<real>, period: nat, i: nat): real
    requires 1 <= period <= i + 1 <= |data|
  {
    Mean(Losses(data)[i + 1 - period .. i + 1])
  }

  /** Gains and losses are clipped at zero, so their averages are non-negative. */
  lemma AveragesNonNegative(data: seq<real>, period: nat, i: nat)
    requires 1 <= period <= i + 1 <= |data|
    ensures AverageGain(data, period, i) >= 0.0 && AverageLoss(data, period, i) >= 0.0
  {
    var gs := Gains(data)[i + 1 - period .. i + 1];
    var ls := Losses(data)[i + 1 - period .. i + 1];
    assert Within(gs, 0.0, Max(gs));
    assert Within(ls, 0.0, Max(ls));
    MeanBounds(gs, 0.0, Max(gs));
    MeanBounds(ls, 0.0, Max(ls));
  }

  /**
   * `calculate_rsi` at index i: 100 - 100/(1 + gain/loss). A zero average
   * loss gives 100 (gain/0 is infinite) unless the average gain is zero
   * too, which gives NaN.
   */
  function RsiAt(data: seq<real>, period: nat, i: nat): (r: Option<real>)
    requires period >= 1 && i < |data|
    ensures r.None? <==> i + 1 < period || (AverageGain(data, period, i) == 0.0 && AverageLoss(data, period, i) == 0.0)
  {
    if i + 1 < period then None
    else
      var g := AverageGain(data, period, i);
      var l := AverageLoss(data, period, i);
      AveragesNonNegative(data, period, i);
      if l == 0.0 then (if g == 0.0 then None else Some(100.0))
      else Some(100.0 - 100.0 / (1.0 + g / l))
  }

  /** `calculate_rsi`: the whole series. */
  function Rsi(data: seq<real>, period: nat): (r: seq<Option<real>>)
    requires period >= 1
    ensures |r| == |data|
  {
    seq(|data|, i requires 0 <= i < |data| => RsiAt(data, period, i))
  }

  /**
   * A defined RSI lies in [0, 100]; it is 100 exactly when the average loss
   * is zero, and otherwise it equals 100 * gain / (gain + loss).
   */
  lemma RsiRange(data: seq<real>, period: nat, i: nat)
    requires period >= 1 && i < |data| && RsiAt(data, period, i).Some?
    ensures 0.0 <= RsiAt(data, period, i).value <= 100.0
    ensures RsiAt(data, period, i).value == 100.0 <==> AverageLoss(data, period, i) == 0.0
    ensures AverageLoss(data, period, i) > 0.0 ==>
            RsiAt(data, period, i).value * (AverageGain(data, period, i) + AverageLoss(data, period, i))
            == 100.0 * AverageGain(data, period, i)
  {
    AveragesNonNegative(data, period, i);
    var g := AverageGain(data, period, i);
    var l := AverageLoss(data, period, i);
    if l > 0.0 {
      RsiFormula(g, l);
    }
  }

  lemma RsiFormula(g: real, l: real)
    requires g >= 0.0 && l > 0.0
    ensures 0.0 <= 100.0 - 100.0 / (1.0 + g / l) < 100.0
    ensures (100.0 - 100.0 / (1.0 + g / l)) * (g + l) == 100.0 * g
  {
    var q := 1.0 + g / l;
    assert g / l >= 0.0;
    assert q * l == l + g;
    assert 100.0 / q <= 100.0 by { RatioInUnit(1.0, q); assert 100.0 / q == 100.0 * (1.0 / q); }
    assert 100.0 / q > 0.0;
    assert (100.0 / q) * (g + l) == 100.0 * l by {
      assert (100.0 / q) * (g + l) == (100.0 / q) * (q * l);
    }
  }

  /** The RSI at i depends on no value after i. */
  lemma RsiNoLookAhead(a: seq<real>, b: seq<real>, period: nat, i: nat)
    requires period >= 1 && i < |a| && i < |b| && a[..i + 1] == b[..i + 1]
    ensures RsiAt(a, period, i) == RsiAt(b, period, i)
  {
    if i + 1 >= period {
      forall k | 0 <= k <= i ensures Delta(a, k) == Delta(b, k) {
        assert a[k] == a[..i + 1][k] && b[k] == b[..i + 1][k];
        if k > 0 {
          assert a[k - 1] == a[..i + 1][k - 1] && b[k - 1] == b[..i + 1][k - 1];
        }
      }
      assert Gains(a)[i + 1 - period .. i + 1] == Gains(b)[i + 1 - period .. i + 1];
      assert Losses(a)[i + 1 - period .. i + 1] == Losses(b)[i + 1 - period .. i + 1];
    }
  }

  /** A flat series has no gains and no losses, so its RSI is 0/0: undefined everywhere. */
  lemma RsiOfConstant(data: seq<real>, c: real, period: nat, i: nat)
    requires period >= 1 && i < |data|
    requires forall k :: 0 <= k < |data| ==> data[k] == c
    ensures RsiAt(data, period, i).None?
  {
    if i + 1 >= period {
      var gs := Gains(data)[i + 1 - period .. i + 1];
      var ls := Losses(data)[i + 1 - period .. i + 1];
      assert forall k :: 0 <= k < |data| ==> Delta(data, k) == 0.0;
      MeanBounds(gs, 0.0, 0.0);
      MeanBounds(ls, 0.0, 0.0);
    }
  }

  // ---------------------------------------------------------------- MACD

  /** The MACD line: fast EMA minus slow EMA. */
  function MacdLine(data: seq<real>, fast: real, slow: real): (r: seq<real>)
    requires fast >= 1.0 && slow >= 1.0
    ensures |r| == |data|
    ensures forall i :: 0 <= i < |data| ==> r[i] == EmaAt(data, fast, i) - EmaAt(data, slow, i)
  {
    seq(|data|, i requires 0 <= i < |data| => EmaAt(data, fast, i) - EmaAt(data, slow, i))
  }

  datatype Macd = Macd(line: real, signal: real, histogram: real)

  /**
   * `calculate_macd` at index i: the MACD line, its EMA over
   * `signalPeriod` and the histogram between them.
   */
  function MacdAt(data: seq<real>, fast: real, slow: real, signalPeriod: real, i: nat): (m: Macd)
    requires fast >= 1.0 && slow >= 1.0 && signalPeriod >= 1.0 && i < |data|
    ensures m.line == EmaAt(data, fast, i) - EmaAt(data, slow, i)
    ensures m.signal == EmaAt(MacdLine(data, fast, slow), signalPeriod, i)
    ensures m.histogram == m.line - m.signal
  {
    var line := MacdLine(data, fast, slow);
    Macd(line[i], EmaAt(line, signalPeriod, i), line[i] - EmaAt(line, signalPeriod, i))
  }

  /** On a flat price series the MACD line, its signal line and the histogram are all zero. */
  lemma MacdOfConstant(data: seq<real>, c: real, fast: real, slow: real, signalPeriod: real, i: nat)
    requires fast >= 1.0 && slow >= 1.0 && signalPeriod >= 1.0 && i < |data|
    requires forall k :: 0 <= k < |data| ==> data[k] == c
    ensures MacdAt(data, fast, slow, signalPeriod, i) == Macd(0.0, 0.0, 0.0)
  {
    var line := MacdLine(data, fast, slow);
    forall k | 0 <= k < |data| ensures line[k] == 0.0 {
      assert Within(data[..k + 1], c, c);
      EmaWithin(data, fast, k, c, c);
      EmaWithin(data, slow, k, c, c);
    }
    assert Within(line[..i + 1], 0.0, 0.0);
    EmaWithin(line, signalPeriod, i, 0.0, 0.0);
  }

  /** The MACD line, signal and histogram at i depend on no value after i. */
  lemma MacdNoLookAhead(a: seq<real>, b: seq<real>, fast: real, slow: real, signalPeriod: real, i: nat)
    requires fast >= 1.0 && slow >= 1.0 && signalPeriod >= 1.0
    requires i < |a| && i < |b| && a[..i + 1] == b[..i + 1]
    ensures MacdAt(a, fast, slow, signalPeriod, i) == MacdAt(b, fast, slow, signalPeriod, i)
  {
    var la, lb := MacdLine(a, fast, slow), MacdLine(b, fast, slow);
    forall k | 0 <= k <= i ensures la[k] == lb[k] {
      assert a[..k + 1] == a[..i + 1][..k + 1] && b[..k + 1] == b[..i + 1][..k + 1];
      EmaNoLookAhead(a, b, fast, k);
      EmaNoLookAhead(a, b, slow, k);
    }
    assert la[..i + 1] == lb[..i + 1];
    EmaNoLookAhead(la, lb, signalPeriod, i);
  }

  // ---------------------------------------------------------------- Bollinger

  datatype Bands = Bands(upper: Option<real>, middle: Option<real>, lower: Option<real>)

  /**
   * `calculate_bollinger_bands` at index i, with the rolling standard
   * deviation `std` supplied by the caller (NaN where pandas gives NaN).
   */
  function BollingerAt(data: seq<real>, period: nat, k: real, std: Option<real>, i: nat): (b: Bands)
    requires period >= 1 && i < |data|
    requires std.Some? ==> std.value >= 0.0
    ensures b.middle == SmaAt(data, period, i)
    ensures b.upper.Some? <==> b.middle.Some? && std.Some?
    ensures b.lower.Some? == b.upper.Some?
    ensures b.upper.Some? ==> b.upper.value - b.middle.value == k * std.value == b.middle.value - b.lower.value
    ensures b.upper.Some? && k >= 0.0 ==> b.lower.value <= b.middle.value <= b.upper.value
  {
    var middle := SmaAt(data, period, i);
    if middle.Some? && std.Some? then
      Bands(Some(middle.value + std.value * k), middle, Some(middle.value - std.value * k))
    else
      Bands(None, middle, None)
  }

  // ---------------------------------------------------------------- VWAP

  function Typical(b: Bar): real
  {
    (b.high + b.low + b.close) / 3.0
  }

  /** Cumulative typical-price-times-volume over the first n bars. */
  function CumPriceVolume(bars: seq<Bar>, n: nat): real
    requires n <= |bars|
  {
    if n == 0 then 0.0 else CumPriceVolume(bars, n - 1) + Typical(bars[n - 1]) * bars[n - 1].volume
  }

  /** Cumulative volume over the first n bars. */
  function CumVolume(bars: seq<Bar>, n: nat): real
    requires n <= |bars|
  {
    if n == 0 then 0.0 else CumVolume(bars, n - 1) + bars[n - 1].volume
  }

  /**
   * `calculate_vwap` at index i: cumulative price-volume over cumulative
   * volume. With no volume yet the quotient is 0/0, a NaN.
   */
  function VwapAt(bars: seq<Bar>, i: nat): Option<real>
    requires i < |bars|
  {
    var v := CumVolume(bars, i + 1);
    if v == 0.0 then None else Some(CumPriceVolume(bars, i + 1) / v)
  }

  lemma {:induction false} WeightedSumWithin(bars: seq<Bar>, n: nat, lo: real, hi: real)
    requires n <= |bars|
    requires forall j :: 0 <= j < n ==> bars[j].volume >= 0.0 && lo <= Typical(bars[j]) <= hi
    ensures lo * CumVolume(bars, n) <= CumPriceVolume(bars, n) <= hi * CumVolume(bars, n)
    ensures CumVolume(bars, n) >= 0.0
  {
    if n > 0 {
      WeightedSumWithin(bars, n - 1, lo, hi);
      var t, v := Typical(bars[n - 1]), bars[n - 1].volume;
      assert t * v >= lo * v by { assert (t - lo) * v >= 0.0; }
      assert t * v <= hi * v by { assert (hi - t) * v >= 0.0; }
    }
  }

  /** Over positive bars the cumulative price-volume is positive once any volume has traded. */
  lemma {:induction false} PriceVolumePositive(bars: seq<Bar>, n: nat)
    requires n <= |bars| && forall j :: 0 <= j < n ==> PositiveBar(bars[j])
    ensures CumPriceVolume(bars, n) >= 0.0 && CumVolume(bars, n) >= 0.0
    ensures CumVolume(bars, n) > 0.0 ==> CumPriceVolume(bars, n) > 0.0
  {
    if n > 0 {
      PriceVolumePositive(bars, n - 1);
      var t, v := Typical(bars[n - 1]), bars[n - 1].volume;
      assert t > 0.0;
      MulNonNeg(t, v);
      assert v > 0.0 ==> t * v > 0.0;
    }
  }

  /** Over positive bars a defined VWAP is positive. */
  lemma VwapPositive(bars: seq<Bar>, i: nat)
    requires i < |bars| && PositiveBars(bars) && VwapAt(bars, i).Some?
    ensures VwapAt(bars, i).value > 0.0
  {
    PriceVolumePositive(bars, i + 1);
    var v, pv := CumVolume(bars, i + 1), CumPriceVolume(bars, i + 1);
    assert v > 0.0 && pv > 0.0;
    assert pv / v > 0.0;
  }

  /** With non-negative volumes, a defined VWAP lies between the smallest and largest typical price so far. */
  lemma VwapWithinTypicalRange(bars: seq<Bar>, i: nat, lo: real, hi: real)
    requires i < |bars| && VwapAt(bars, i).Some?
    requires forall j :: 0 <= j <= i ==> bars[j].volume >= 0.0 && lo <= Typical(bars[j]) <= hi
    ensures lo <= VwapAt(bars, i).value <= hi
  {
    WeightedSumWithin(bars, i + 1, lo, hi);
    var v := CumVolume(bars, i + 1);
    var pv := CumPriceVolume(bars, i + 1);
    assert v > 0.0;
    QuotientWithin(pv, v, lo, hi);
  }

  lemma {:induction false} CumulativeNoLookAhead(a: seq<Bar>, b: seq<Bar>, n: nat)
    requires n <= |a| && n <= |b| && a[..n] == b[..n]
    ensures CumVolume(a, n) == CumVolume(b, n) && CumPriceVolume(a, n) == CumPriceVolume(b, n)
  {
    if n > 0 {
      assert a[n - 1] == a[..n][n - 1] && b[n - 1] == b[..n][n - 1];
      assert a[..n - 1] == a[..n][..n - 1] && b[..n - 1] == b[..n][..n - 1];
      CumulativeNoLookAhead(a, b, n - 1);
    }
  }

  /** The VWAP at i depends on no bar after i, so computing it on `bars[..i+1]` gives the same value. */
  lemma VwapNoLookAhead(a: seq<Bar>, b: seq<Bar>, i: nat)
    requires i < |a| && i < |b| && a[..i + 1] == b[..i + 1]
    ensures VwapAt(a, i) == VwapAt(b, i)
  {
    CumulativeNoLookAhead(a, b, i + 1);
  }

  // ---------------------------------------------------------------- ATR

  /**
   * The true range of bar i: the largest of high-low and the distances of
   * high and low from the previous close. Bar 0 has no previous close and
   * pandas' row maximum skips the NaNs, leaving high-low.
   */
  function TrueRangeAt(bars: seq<Bar>, i: nat): (tr: real)
    requires i < |bars|
    ensures tr >= bars[i].high - bars[i].low
    ensures i == 0 ==> tr == bars[i].high - bars[i].low
    ensures i > 0 ==> tr >= Abs(bars[i].high - bars[i - 1].close) && tr >= Abs(bars[i].low - bars[i - 1].close)
    ensures i > 0 ==> tr == bars[i].high - bars[i].low || tr == Abs(bars[i].high - bars[i - 1].close) ||
                      tr == Abs(bars[i].low - bars[i - 1].close)
  {
    var hl := bars[i].high - bars[i].low;
    if i == 0 then hl
    else
      var hc := Abs(bars[i].high - bars[i - 1].close);
      var lc := Abs(bars[i].low - bars[i - 1].close);
      if hl >= hc && hl >= lc then hl else if hc >= lc then hc else lc
  }

  function TrueRanges(bars: seq<Bar>): (r: seq<real>)
    ensures |r| == |bars|
    ensures forall i :: 0 <= i < |bars| ==> r[i] == TrueRangeAt(bars, i)
  {
    seq(|bars|, i requires 0 <= i < |bars| => TrueRangeAt(bars, i))
  }

  /** `calculate_atr` at index i: the rolling mean of the true range. */
  function AtrAt(bars: seq<Bar>, period: nat, i: nat): Option<real>
    requires period >= 1 && i < |bars|
  {
    SmaAt(TrueRanges(bars), period, i)
  }

  /** When every bar has low <= high, a defined ATR is at least the smallest high-low range of its window. */
  lemma AtrAtLeastRange(bars: seq<Bar>, period: nat, i: nat, lo: real)
    requires period >= 1 && i < |bars| && i + 1 >= period
    requires forall j :: i + 1 - period <= j <= i ==> bars[j].high - bars[j].low >= lo
    ensures AtrAt(bars, period, i).Some? && AtrAt(bars, period, i).value >= lo
  {
    var trs := TrueRanges(bars);
    SmaIsWindowMean(trs, period, i);
    var w := trs[i + 1 - period .. i + 1];
    assert forall k :: 0 <= k < |w| ==> w[k] == TrueRangeAt(bars, i + 1 - period + k);
    MeanBounds(w, lo, Max(w));
  }

  // ---------------------------------------------------------------- Stochastic

  /**
   * `calculate_stochastic` %K at index i: where the close sits between the
   * lowest low and the highest high of the last `kPeriod` bars, scaled to
   * 100. A flat window divides by zero and gives NaN.
   */
  function StochasticKAt(bars: seq<Bar>, kPeriod: nat, i: nat): Option<real>
    requires kPeriod >= 1 && i < |bars|
  {
    if i + 1 < kPeriod then None
    else
      var lowest := Min(Lows(bars)[i + 1 - kPeriod .. i + 1]);
      var highest := Max(Highs(bars)[i + 1 - kPeriod .. i + 1]);
      if highest == lowest then None
      else Some(Percent(bars[i].close, lowest, highest))
  }

  function StochasticK(bars: seq<Bar>, kPeriod: nat): (r: seq<Option<real>>)
    requires kPeriod >= 1
    ensures |r| == |bars|
    ensures forall i :: 0 <= i < |bars| ==> r[i] == StochasticKAt(bars, kPeriod, i)
  {
    seq(|bars|, i requires 0 <= i < |bars| => StochasticKAt(bars, kPeriod, i))
  }

  /** %D at index i: the rolling mean of %K over `dPeriod`. */
  function StochasticDAt(bars: seq<Bar>, kPeriod: nat, dPeriod: nat, i: nat): Option<real>
    requires kPeriod >= 1 && dPeriod >= 1 && i < |bars|
  {
    RollingMeanAt(StochasticK(bars, kPeriod), dPeriod, i)
  }

  predicate CloseInRange(b: Bar)
  {
    b.low <= b.close <= b.high
  }

  /** Where `c` sits between `lowest` and `highest`, in percent. */
  function Percent(c: real, lowest: real, highest: real): real
    requires highest != lowest
  {
    100.0 * ((c - lowest) / (highest - lowest))
  }

  lemma PercentWithin(c: real, lowest: real, highest: real)
    requires lowest <= c <= highest && highest != lowest
    ensures 0.0 <= Percent(c, lowest, highest) <= 100.0
  {
    RatioInUnit(c - lowest, highest - lowest);
  }

  /** The lowest low and highest high of bars w..i enclose bar i's own low and high. */
  lemma WindowEnclosesLast(bars: seq<Bar>, w: nat, i: nat)
    requires w <= i < |bars|
    ensures Min(Lows(bars)[w .. i + 1]) <= bars[i].low && bars[i].high <= Max(Highs(bars)[w .. i + 1])
  {
    assert Lows(bars)[w .. i + 1][i - w] == bars[i].low;
    assert Highs(bars)[w .. i + 1][i - w] == bars[i].high;
  }

  /** When bar i's close lies within its own low and high, a defined %K lies in [0, 100]. */
  lemma StochasticKRange(bars: seq<Bar>, kPeriod: nat, i: nat)
    requires kPeriod >= 1 && i < |bars| && CloseInRange(bars[i])
    requires StochasticKAt(bars, kPeriod, i).Some?
    ensures 0.0 <= StochasticKAt(bars, kPeriod, i).value <= 100.0
  {
    var w := i + 1 - kPeriod;
    var lowest, highest := Min(Lows(bars)[w .. i + 1]), Max(Highs(bars)[w .. i + 1]);
    WindowEnclosesLast(bars, w, i);
    PercentWithin(bars[i].close, lowest, highest);
  }

  /** A defined rolling mean lies within any bounds of the defined values it averages. */
  lemma RollingMeanWithin(xs: seq<Option<real>>, period: nat, i: nat, lo: real, hi: real)
    requires period >= 1 && i < |xs| && RollingMeanAt(xs, period, i).Some?
    requires forall j :: 0 <= j < |xs| && xs[j].Some? ==> lo <= xs[j].value <= hi
    ensures lo <= RollingMeanAt(xs, period, i).value <= hi
  {
    var start := i + 1 - period;
    var vs := Values(xs[start .. i + 1]);
    forall k | 0 <= k < |vs| ensures lo <= vs[k] <= hi {
      assert xs[start .. i + 1][k] == xs[start + k];
    }
    MeanBounds(vs, lo, hi);
  }

  /** When every close lies within its bar, a defined %D lies in [0, 100]. */
  lemma StochasticDRange(bars: seq<Bar>, kPeriod: nat, dPeriod: nat, i: nat)
    requires kPeriod >= 1 && dPeriod >= 1 && i < |bars|
    requires forall j :: 0 <= j < |bars| ==> CloseInRange(bars[j])
    requires StochasticDAt(bars, kPeriod, dPeriod, i).Some?
    ensures 0.0 <= StochasticDAt(bars, kPeriod, dPeriod, i).value <= 100.0
  {
    var ks := StochasticK(bars, kPeriod);
    forall j | 0 <= j < |ks| && ks[j].Some? ensures 0.0 <= ks[j].value <= 100.0 {
      StochasticKRange(bars, kPeriod, j);
    }
    RollingMeanWithin(ks, dPeriod, i, 0.0, 100.0);
  }
}

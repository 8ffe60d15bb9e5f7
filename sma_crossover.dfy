/**
 * The SMA crossover strategy: buy when the short simple moving average of
 * the closes crosses above the long one, sell when it crosses below.
 */
module SmaCrossover {
  import opened Wrappers
  import opened Base
  import opened Indicators

  /** The parameters `_initialize` reads, with their defaults. */
  datatype Config = Config(shortPeriod: real, longPeriod: real)

  function FromParams(p: Params): (cfg: Config)
    ensures p == map[] ==> cfg == Config(10.0, 30.0)
  {
    Config(Get(p, "short_period", 10.0), Get(p, "long_period", 30.0))
  }

  /** The description `_initialize` sets: "SMA Crossover (short/long)". */
  function Description(cfg: Config): (t: Text)
    ensures t.Format? && t.args == [cfg.shortPeriod, cfg.longPeriod]
  {
    Format("SMA Crossover ({}/{})", [cfg.shortPeriod, cfg.longPeriod])
  }

  /** Both periods are windows pandas can roll over. */
  predicate Windows(cfg: Config)
  {
    Window(cfg.shortPeriod) && Window(cfg.longPeriod)
  }

  function ShortSma(cfg: Config, bars: seq<Bar>, i: nat): Option<real>
    requires Windows(cfg) && i < |bars|
  {
    SmaAt(Closes(bars), Len(cfg.shortPeriod), i)
  }

  function LongSma(cfg: Config, bars: seq<Bar>, i: nat): Option<real>
    requires Windows(cfg) && i < |bars|
  {
    SmaAt(Closes(bars), Len(cfg.longPeriod), i)
  }

  /** The short SMA was at or below the long one at i-1 and is above it at i. */
  predicate BullishCross(cfg: Config, bars: seq<Bar>, i: nat)
    requires Windows(cfg) && 1 <= i < |bars|
  {
    Le(ShortSma(cfg, bars, i - 1), LongSma(cfg, bars, i - 1)) && Gt(ShortSma(cfg, bars, i), LongSma(cfg, bars, i))
  }

  /** The short SMA was at or above the long one at i-1 and is below it at i. */
  predicate BearishCross(cfg: Config, bars: seq<Bar>, i: nat)
    requires Windows(cfg) && 1 <= i < |bars|
  {
    Ge(ShortSma(cfg, bars, i - 1), LongSma(cfg, bars, i - 1)) && Lt(ShortSma(cfg, bars, i), LongSma(cfg, bars, i))
  }

  /**
   * `analyze`: hold during the warm-up (index < long period), then buy on
   * a bullish crossover and sell on a bearish one, with confidence the
   * relative gap between the averages, capped at 1; hold otherwise.
   */
  function Analyze(cfg: Config, bars: seq<Bar>, index: nat): (s: Signal)
    requires Windows(cfg) && index < |bars|
    ensures s.timestamp == bars[index].timestamp && s.price == Some(bars[index].close) && s.quantity == None
    ensures (index as real) < cfg.longPeriod ==> s == HoldAt(bars[index], InsufficientData)
    ensures s.action == Buy <==> (index as real) >= cfg.longPeriod && BullishCross(cfg, bars, index)
    ensures s.action == Sell <==> (index as real) >= cfg.longPeriod && BearishCross(cfg, bars, index)
    ensures s.action == Hold ==> s.confidence == 0.0
    ensures s.confidence <= 1.0
  {
    if (index as real) < cfg.longPeriod then HoldAt(bars[index], InsufficientData)
    else
      var cs, cl := ShortSma(cfg, bars, index), LongSma(cfg, bars, index);
      if BullishCross(cfg, bars, index) then
        BarSignal(bars[index], Buy, CappedRatio(Abs(cs.value - cl.value), cl.value), BullishCrossover)
      else if BearishCross(cfg, bars, index) then
        BarSignal(bars[index], Sell, CappedRatio(Abs(cl.value - cs.value), cl.value), BearishCrossover)
      else HoldAt(bars[index], NoCrossover)
  }

  /** With positive prices every confidence lies in [0, 1], and a crossover's is positive. */
  lemma ConfidenceInUnit(cfg: Config, bars: seq<Bar>, index: nat)
    requires Windows(cfg) && index < |bars| && PositiveBars(bars)
    ensures 0.0 <= Analyze(cfg, bars, index).confidence <= 1.0
    ensures Analyze(cfg, bars, index).action != Hold ==> Analyze(cfg, bars, index).confidence > 0.0
  {
    if (index as real) >= cfg.longPeriod {
      var cl := LongSma(cfg, bars, index);
      if cl.Some? {
        SmaPositive(Closes(bars), Len(cfg.longPeriod), index);
      }
    }
  }

  /** Both averages at `i` depend only on the bars up to `i`. */
  lemma AveragesNoLookAhead(cfg: Config, a: seq<Bar>, b: seq<Bar>, i: nat)
    requires Windows(cfg) && i < |a| && i < |b| && a[..i + 1] == b[..i + 1]
    ensures ShortSma(cfg, a, i) == ShortSma(cfg, b, i) && LongSma(cfg, a, i) == LongSma(cfg, b, i)
  {
    ClosesPrefix(a, b, i + 1);
    SmaNoLookAhead(Closes(a), Closes(b), Len(cfg.shortPeriod), i);
    SmaNoLookAhead(Closes(a), Closes(b), Len(cfg.longPeriod), i);
  }

  /** The signal at `index` is the same whatever bars follow it: there is no look-ahead. */
  lemma NoLookAhead(cfg: Config, a: seq<Bar>, b: seq<Bar>, index: nat)
    requires Windows(cfg) && index < |a| && index < |b| && a[..index + 1] == b[..index + 1]
    ensures Analyze(cfg, a, index) == Analyze(cfg, b, index)
  {
    assert a[index] == a[..index + 1][index] && b[index] == b[..index + 1][index];
    if (index as real) >= cfg.longPeriod {
      AveragesNoLookAhead(cfg, a, b, index);
      if index >= 1 {
        assert a[..index] == a[..index + 1][..index] && b[..index] == b[..index + 1][..index];
        AveragesNoLookAhead(cfg, a, b, index - 1);
      }
      assert BullishCross(cfg, a, index) == BullishCross(cfg, b, index);
      assert BearishCross(cfg, a, index) == BearishCross(cfg, b, index);
    }
  }

  /** A buy leaves the short SMA above the long one, so the next bar cannot buy again. */
  lemma NoConsecutiveBuys(cfg: Config, bars: seq<Bar>, index: nat)
    requires Windows(cfg) && index + 1 < |bars|
    requires Analyze(cfg, bars, index).action == Buy
    ensures Analyze(cfg, bars, index + 1).action != Buy
  {
  }

  /** On a flat market the averages coincide, so the strategy never trades. */
  lemma FlatMarketHolds(cfg: Config, bars: seq<Bar>, c: real, index: nat)
    requires Windows(cfg) && index < |bars|
    requires forall k :: 0 <= k < |bars| ==> bars[k].close == c
    ensures Analyze(cfg, bars, index).action == Hold
  {
    if (index as real) >= cfg.longPeriod {
      var closes := Closes(bars);
      SmaOfConstant(closes, c, Len(cfg.longPeriod), index);
      if index + 1 >= Len(cfg.shortPeriod) {
        SmaOfConstant(closes, c, Len(cfg.shortPeriod), index);
      } else {
        SmaIsWindowMean(closes, Len(cfg.shortPeriod), index);
      }
    }
  }

  /**
   * `validate_parameters`: the short period must be below the long one
   * (checked first), and both must be at least 2.
   */
  function Validate(p: Params): (v: Validation)
    ensures v == Accepted <==> 2.0 <= FromParams(p).shortPeriod < FromParams(p).longPeriod
    ensures FromParams(p).shortPeriod >= FromParams(p).longPeriod ==>
            v == Rejected("Short period must be less than long period")
  {
    var short, long := Get(p, "short_period", 10.0), Get(p, "long_period", 30.0);
    if short >= long then Rejected("Short period must be less than long period")
    else if short < 2.0 || long < 2.0 then Rejected("Periods must be at least 2")
    else Accepted
  }
}

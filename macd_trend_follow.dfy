/**
 * The MACD trend-following strategy: buy when the MACD line crosses above
 * its signal line, sell when it crosses below, and otherwise hold while
 * reporting the direction of the trend.
 */
module MacdTrendFollow {
  import opened Wrappers
  import opened Base
  import opened Indicators

  /** The parameters `_initialize` reads, with their defaults. */
  datatype Config = Config(fastPeriod: real, slowPeriod: real, signalPeriod: real)

  function FromParams(p: Params): (cfg: Config)
    ensures p == map[] ==> cfg == Config(12.0, 26.0, 9.0)
  {
    Config(Get(p, "fast_period", 12.0), Get(p, "slow_period", 26.0), Get(p, "signal_period", 9.0))
  }

  /** The description `_initialize` sets: "MACD Trend Follow (fast/slow/signal)". */
  function Description(cfg: Config): (t: Text)
    ensures t.Format? && t.args == [cfg.fastPeriod, cfg.slowPeriod, cfg.signalPeriod]
  {
    Format("MACD Trend Follow ({}/{}/{})", [cfg.fastPeriod, cfg.slowPeriod, cfg.signalPeriod])
  }

  /** All three spans are ones `ewm` accepts: at least 1, not necessarily whole. */
  predicate Windows(cfg: Config)
  {
    Span(cfg.fastPeriod) && Span(cfg.slowPeriod) && Span(cfg.signalPeriod)
  }

  function MacdOf(cfg: Config, bars: seq<Bar>, i: nat): Macd
    requires Windows(cfg) && i < |bars|
  {
    MacdAt(Closes(bars), cfg.fastPeriod, cfg.slowPeriod, cfg.signalPeriod, i)
  }

  /** min(|histogram| / |macd|, 1), or 0.5 when the MACD line is exactly zero. */
  function CrossConfidence(m: Macd): (c: real)
    ensures 0.0 <= c <= 1.0
    ensures m.line == 0.0 ==> c == 0.5
    ensures m.line != 0.0 && m.histogram != 0.0 ==> c > 0.0
  {
    if m.line != 0.0 then
      var r := Abs(m.histogram) / Abs(m.line);
      assert r >= 0.0;
      assert m.histogram != 0.0 ==> r > 0.0;
      MinReal(r, 1.0)
    else MinReal(0.5, 1.0)
  }

  /** The hold reason: bullish when histogram and MACD are both positive, bearish when both negative. */
  function TrendOf(m: Macd): (r: Reason)
    ensures r == BullishTrend <==> m.histogram > 0.0 && m.line > 0.0
    ensures r == BearishTrend <==> m.histogram < 0.0 && m.line < 0.0
    ensures r in {BullishTrend, BearishTrend, NeutralTrend}
  {
    if m.histogram > 0.0 && m.line > 0.0 then BullishTrend
    else if m.histogram < 0.0 && m.line < 0.0 then BearishTrend
    else NeutralTrend
  }

  /**
   * The decision of `analyze` past the warm-up, from the MACD at index-1
   * and at index: buy on a bullish crossover of the signal line, sell on
   * a bearish one, otherwise hold with the trend as the reason.
   */
  function Decide(bar: Bar, prev: Macd, cur: Macd): (s: Signal)
    requires cur.histogram == cur.line - cur.signal
    ensures s.timestamp == bar.timestamp && s.price == Some(bar.close) && s.quantity == None
    ensures s.action == Buy <==> prev.line <= prev.signal && cur.line > cur.signal
    ensures s.action == Sell <==> prev.line >= prev.signal && cur.line < cur.signal
    ensures s.action != Hold ==> 0.0 < s.confidence <= 1.0 && s.confidence == CrossConfidence(cur)
    ensures s.action == Hold ==> s.confidence == 0.0 && s.reason == TrendOf(cur)
  {
    if prev.line <= prev.signal && cur.line > cur.signal then
      BarSignal(bar, Buy, CrossConfidence(cur), BullishCrossover)
    else if prev.line >= prev.signal && cur.line < cur.signal then
      BarSignal(bar, Sell, CrossConfidence(cur), BearishCrossover)
    else HoldAt(bar, TrendOf(cur))
  }

  /** `analyze`: hold while index < slow + signal, then decide on the MACD at index-1 and index. */
  function Analyze(cfg: Config, bars: seq<Bar>, index: nat): (s: Signal)
    requires Windows(cfg) && index < |bars|
    ensures (index as real) < cfg.slowPeriod + cfg.signalPeriod ==> s == HoldAt(bars[index], InsufficientData)
    ensures (index as real) >= cfg.slowPeriod + cfg.signalPeriod ==>
            s == Decide(bars[index], MacdOf(cfg, bars, index - 1), MacdOf(cfg, bars, index))
  {
    if (index as real) < cfg.slowPeriod + cfg.signalPeriod then HoldAt(bars[index], InsufficientData)
    else Decide(bars[index], MacdOf(cfg, bars, index - 1), MacdOf(cfg, bars, index))
  }

  /** The signal at `index` is the same whatever bars follow it. */
  lemma NoLookAhead(cfg: Config, a: seq<Bar>, b: seq<Bar>, index: nat)
    requires Windows(cfg) && index < |a| && index < |b| && a[..index + 1] == b[..index + 1]
    ensures Analyze(cfg, a, index) == Analyze(cfg, b, index)
  {
    assert a[index] == a[..index + 1][index] && b[index] == b[..index + 1][index];
    if (index as real) >= cfg.slowPeriod + cfg.signalPeriod {
      var f, s, g := cfg.fastPeriod, cfg.slowPeriod, cfg.signalPeriod;
      assert a[..index] == a[..index + 1][..index] && b[..index] == b[..index + 1][..index];
      ClosesPrefix(a, b, index + 1);
      ClosesPrefix(a, b, index);
      MacdNoLookAhead(Closes(a), Closes(b), f, s, g, index);
      MacdNoLookAhead(Closes(a), Closes(b), f, s, g, index - 1);
    }
  }

  /** On a flat market the MACD is identically zero, so past the warm-up the strategy holds as neutral. */
  lemma FlatMarketHolds(cfg: Config, bars: seq<Bar>, c: real, index: nat)
    requires Windows(cfg) && index < |bars| && (index as real) >= cfg.slowPeriod + cfg.signalPeriod
    requires forall k :: 0 <= k < |bars| ==> bars[k].close == c
    ensures Analyze(cfg, bars, index) == HoldAt(bars[index], NeutralTrend)
  {
    var f, s, g := cfg.fastPeriod, cfg.slowPeriod, cfg.signalPeriod;
    MacdOfConstant(Closes(bars), c, f, s, g, index);
    MacdOfConstant(Closes(bars), c, f, s, g, index - 1);
  }

  /**
   * `validate_parameters`: the fast period must be below the slow one
   * (checked first), and all three periods must be at least 2.
   */
  function Validate(p: Params): (v: Validation)
    ensures v == Accepted <==>
            var cfg := FromParams(p);
            cfg.fastPeriod < cfg.slowPeriod && cfg.fastPeriod >= 2.0 && cfg.signalPeriod >= 2.0
    ensures FromParams(p).fastPeriod >= FromParams(p).slowPeriod ==>
            v == Rejected("Fast period must be less than slow period")
  {
    var fast, slow, signal := Get(p, "fast_period", 12.0), Get(p, "slow_period", 26.0), Get(p, "signal_period", 9.0);
    if fast >= slow then Rejected("Fast period must be less than slow period")
    else if fast < 2.0 || slow < 2.0 || signal < 2.0 then Rejected("All periods must be at least 2")
    else Accepted
  }
}

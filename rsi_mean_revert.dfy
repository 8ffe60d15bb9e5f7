/**
 * The RSI mean-reversion strategy: buy when the RSI of the closes climbs
 * back above the oversold level, sell while it is above the overbought
 * level.
 */
module RsiMeanRevert {
  import opened Wrappers
  import opened Base
  import opened Indicators

  /** The parameters `_initialize` reads, with their defaults. */
  datatype Config = Config(period: real, oversold: real, overbought: real)

  function FromParams(p: Params): (cfg: Config)
    ensures p == map[] ==> cfg == Config(14.0, 30.0, 70.0)
  {
    Config(Get(p, "period", 14.0), Get(p, "oversold", 30.0), Get(p, "overbought", 70.0))
  }

  /** The description `_initialize` sets, naming the period and both thresholds. */
  function Description(cfg: Config): (t: Text)
    ensures t.Format? && t.args == [cfg.period, cfg.oversold, cfg.overbought]
  {
    Format("RSI Mean Reversion (period={}, oversold={}, overbought={})", [cfg.period, cfg.oversold, cfg.overbought])
  }

  predicate Windows(cfg: Config)
  {
    Window(cfg.period)
  }

  /** An RSI reading: NaN (None) or a value in [0, 100]. */
  predicate Reading(r: Option<real>)
  {
    r.Some? ==> 0.0 <= r.value <= 100.0
  }

  /** The RSI of the closes at i, which is always a reading. */
  function RsiOf(cfg: Config, bars: seq<Bar>, i: nat): (r: Option<real>)
    requires Windows(cfg) && i < |bars|
    ensures Reading(r)
  {
    var r := RsiAt(Closes(bars), Len(cfg.period), i);
    if r.Some? then RsiRange(Closes(bars), Len(cfg.period), i); r else r
  }

  /**
   * The decision of `analyze` past the warm-up, from the RSI at index-1
   * and at index: buy when the RSI leaves the oversold zone, otherwise
   * sell while it is above the overbought level (a level test, not a
   * crossover), otherwise hold. A NaN satisfies no comparison.
   */
  function Decide(cfg: Config, bar: Bar, prev: Option<real>, cur: Option<real>): (s: Signal)
    requires Reading(prev) && Reading(cur)
    ensures s.timestamp == bar.timestamp && s.price == Some(bar.close) && s.quantity == None
    ensures s.action == Buy <==> Le(prev, Some(cfg.oversold)) && Gt(cur, Some(cfg.oversold))
    ensures s.action == Sell <==>
            !(Le(prev, Some(cfg.oversold)) && Gt(cur, Some(cfg.oversold))) && Gt(cur, Some(cfg.overbought))
    ensures s.action == Hold ==> s.confidence == 0.0 && s.reason == RsiNeutral
    ensures s.action != Hold ==> 0.0 < s.confidence <= 1.0
    ensures s.action == Buy && prev.value == cfg.oversold ==> s.confidence == 0.5
  {
    if Le(prev, Some(cfg.oversold)) && Gt(cur, Some(cfg.oversold)) then
      var c := if prev.value < cfg.oversold then PositiveShare(cfg.oversold - prev.value, cfg.oversold) else 0.5;
      BarSignal(bar, Buy, MinReal(c, 1.0), RsiOversold)
    else if Gt(cur, Some(cfg.overbought)) then
      var c := PositiveShare(cur.value - cfg.overbought, 100.0 - cfg.overbought);
      BarSignal(bar, Sell, MinReal(c, 1.0), RsiOverbought)
    else HoldAt(bar, RsiNeutral)
  }

  /** `num / den` for positive operands; the quotient is positive. */
  function PositiveShare(num: real, den: real): (r: real)
    requires num > 0.0 && den > 0.0
    ensures r > 0.0 && r * den == num
  {
    num / den
  }

  /** `analyze`: hold during the warm-up (index < period + 1), then decide on the RSI at index-1 and index. */
  function Analyze(cfg: Config, bars: seq<Bar>, index: nat): (s: Signal)
    requires Windows(cfg) && index < |bars|
    ensures (index as real) < cfg.period + 1.0 ==> s == HoldAt(bars[index], InsufficientData)
    ensures (index as real) >= cfg.period + 1.0 ==>
            s == Decide(cfg, bars[index], RsiOf(cfg, bars, index - 1), RsiOf(cfg, bars, index))
  {
    if (index as real) < cfg.period + 1.0 then HoldAt(bars[index], InsufficientData)
    else
      Decide(cfg, bars[index], RsiOf(cfg, bars, index - 1), RsiOf(cfg, bars, index))
  }

  /** The signal at `index` is the same whatever bars follow it. */
  lemma NoLookAhead(cfg: Config, a: seq<Bar>, b: seq<Bar>, index: nat)
    requires Windows(cfg) && index < |a| && index < |b| && a[..index + 1] == b[..index + 1]
    ensures Analyze(cfg, a, index) == Analyze(cfg, b, index)
  {
    assert a[index] == a[..index + 1][index] && b[index] == b[..index + 1][index];
    if (index as real) >= cfg.period + 1.0 {
      assert a[..index] == a[..index + 1][..index] && b[..index] == b[..index + 1][..index];
      ClosesPrefix(a, b, index + 1);
      ClosesPrefix(a, b, index);
      RsiNoLookAhead(Closes(a), Closes(b), Len(cfg.period), index);
      RsiNoLookAhead(Closes(a), Closes(b), Len(cfg.period), index - 1);
    }
  }

  /** On a flat market the RSI is 0/0 (NaN), so past the warm-up the strategy reports neutral and holds. */
  lemma FlatMarketHolds(cfg: Config, bars: seq<Bar>, c: real, index: nat)
    requires Windows(cfg) && index < |bars| && (index as real) >= cfg.period + 1.0
    requires forall k :: 0 <= k < |bars| ==> bars[k].close == c
    ensures Analyze(cfg, bars, index) == HoldAt(bars[index], RsiNeutral)
  {
    RsiOfConstant(Closes(bars), c, Len(cfg.period), index);
  }

  /**
   * `validate_parameters`: the period must be at least 2 (checked first),
   * oversold below overbought, and both thresholds within [0, 100].
   */
  function Validate(p: Params): (v: Validation)
    ensures v == Accepted <==>
            var cfg := FromParams(p); cfg.period >= 2.0 && 0.0 <= cfg.oversold < cfg.overbought <= 100.0
    ensures FromParams(p).period < 2.0 ==> v == Rejected("Period must be at least 2")
  {
    var period, oversold, overbought := Get(p, "period", 14.0), Get(p, "oversold", 30.0), Get(p, "overbought", 70.0);
    if period < 2.0 then Rejected("Period must be at least 2")
    else if oversold >= overbought then Rejected("Oversold threshold must be less than overbought threshold")
    else if oversold < 0.0 || overbought > 100.0 then Rejected("RSI thresholds must be between 0 and 100")
    else Accepted
  }
}

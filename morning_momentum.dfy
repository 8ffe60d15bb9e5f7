/**
 * The morning momentum strategy: buy a bar that opens far enough above the
 * previous close, with the RSI below a ceiling and the volume well above
 * its recent average; then follow the highest close with a trailing stop
 * and leave at the latest near the end of the data.
 */
module MorningMomentum {
  import opened Wrappers
  import opened Series
  import opened Base
  import opened Indicators

  /** The parameters `_initialize` reads, with their defaults. */
  datatype Config = Config(
    gapThreshold: real,
    rsiPeriod: real,
    rsiMax: real,
    volumeRatioMin: real,
    volumePeriod: real,
    trailingStopPct: real)

  function FromParams(p: Params): (cfg: Config)
    ensures p == map[] ==> cfg == Config(2.0, 5.0, 70.0, 2.0, 20.0, 2.0)
  {
    Config(Get(p, "gap_threshold", 2.0), Get(p, "rsi_period", 5.0), Get(p, "rsi_max", 70.0),
           Get(p, "volume_ratio_min", 2.0), Get(p, "volume_period", 20.0), Get(p, "trailing_stop_pct", 2.0))
  }

  /** The description `_initialize` sets: "Morning Momentum (gap><g>%, RSI<<max>, vol><v>x)". */
  function Description(cfg: Config): (t: Text)
    ensures t.Format? && t.args == [cfg.gapThreshold, cfg.rsiMax, cfg.volumeRatioMin]
  {
    Format("Morning Momentum (gap>{}%, RSI<{}, vol>{}x)", [cfg.gapThreshold, cfg.rsiMax, cfg.volumeRatioMin])
  }

  predicate Windows(cfg: Config)
  {
    Window(cfg.rsiPeriod) && Window(cfg.volumePeriod)
  }

  /** The warm-up: index < max(rsi_period + 1, volume_period). */
  predicate WarmingUp(cfg: Config, index: nat)
  {
    (index as real) < cfg.rsiPeriod + 1.0 || (index as real) < cfg.volumePeriod
  }

  /** The gap of the bar's open over the previous close, in percent. */
  function GapPct(bars: seq<Bar>, index: nat): (g: real)
    requires 1 <= index < |bars| && bars[index - 1].close > 0.0
    ensures g >= 0.0 <==> bars[index].open >= bars[index - 1].close
    ensures g * bars[index - 1].close == (bars[index].open - bars[index - 1].close) * 100.0
  {
    var prev := bars[index - 1].close;
    var share := (bars[index].open - prev) / prev;
    assert share * prev == bars[index].open - prev;
    share * 100.0
  }

  /** The mean volume of exactly the `volume_period` bars before `index`. */
  function AverageVolume(cfg: Config, bars: seq<Bar>, index: nat): real
    requires Windows(cfg) && !WarmingUp(cfg, index) && index < |bars|
  {
    Mean(Volumes(bars)[index - Len(cfg.volumePeriod) .. index])
  }

  /** The bar's volume relative to that mean, or 0 when the mean is not positive. */
  function VolumeRatio(cfg: Config, bars: seq<Bar>, index: nat): (r: real)
    requires Windows(cfg) && !WarmingUp(cfg, index) && index < |bars|
    ensures AverageVolume(cfg, bars, index) > 0.0 ==> r * AverageVolume(cfg, bars, index) == bars[index].volume
    ensures AverageVolume(cfg, bars, index) <= 0.0 ==> r == 0.0
    ensures bars[index].volume >= 0.0 ==> r >= 0.0
  {
    var avg := AverageVolume(cfg, bars, index);
    if avg > 0.0 then bars[index].volume / avg else 0.0
  }

  /** The indicator values `analyze` reads at the current bar. */
  datatype Readings = Readings(gap: real, rsi: Option<real>, volumeRatio: real)

  /** An RSI that is NaN or within [0, 100], and a non-negative volume ratio. */
  predicate Sane(r: Readings)
  {
    (r.rsi.Some? ==> 0.0 <= r.rsi.value <= 100.0) && r.volumeRatio >= 0.0
  }

  function ReadingsAt(cfg: Config, bars: seq<Bar>, index: nat): (r: Readings)
    requires Windows(cfg) && !WarmingUp(cfg, index) && index < |bars| && PositiveBars(bars)
    ensures Sane(r)
    ensures r == Readings(GapPct(bars, index), RsiAt(Closes(bars), Len(cfg.rsiPeriod), index), VolumeRatio(cfg, bars, index))
  {
    var rsi := RsiAt(Closes(bars), Len(cfg.rsiPeriod), index);
    if rsi.Some? then RsiRange(Closes(bars), Len(cfg.rsiPeriod), index); Readings(GapPct(bars, index), rsi, VolumeRatio(cfg, bars, index))
    else Readings(GapPct(bars, index), rsi, VolumeRatio(cfg, bars, index))
  }

  /** The entry test: a large enough gap, the RSI below its ceiling (never a NaN) and a high enough volume ratio. */
  predicate EntrySignal(cfg: Config, r: Readings)
  {
    r.gap >= cfg.gapThreshold && Lt(r.rsi, Some(cfg.rsiMax)) && r.volumeRatio >= cfg.volumeRatioMin
  }

  /**
   * The entry confidence: 0.4 times the gap over twice its threshold, plus
   * 0.4 times the volume ratio over twice its minimum, plus 0.2 times the
   * RSI's relative distance below its ceiling, capped at 1.
   */
  function EntryConfidence(cfg: Config, r: Readings): (c: real)
    requires Sane(r) && EntrySignal(cfg, r) && cfg.gapThreshold != 0.0 && cfg.volumeRatioMin != 0.0
    ensures c <= 1.0
    ensures cfg.gapThreshold > 0.0 && cfg.volumeRatioMin > 0.0 ==> c > 0.4
  {
    var gapScore := r.gap / (cfg.gapThreshold * 2.0);
    var volumeScore := r.volumeRatio / (cfg.volumeRatioMin * 2.0);
    var rsiScore := (cfg.rsiMax - r.rsi.value) / cfg.rsiMax;
    assert rsiScore > 0.0;
    assert cfg.gapThreshold > 0.0 ==> gapScore >= 0.5 by {
      if cfg.gapThreshold > 0.0 {
        assert gapScore * (cfg.gapThreshold * 2.0) == r.gap;
      }
    }
    assert cfg.volumeRatioMin > 0.0 ==> volumeScore >= 0.5 by {
      if cfg.volumeRatioMin > 0.0 {
        assert volumeScore * (cfg.volumeRatioMin * 2.0) == r.volumeRatio;
      }
    }
    MinReal(gapScore * 0.4 + volumeScore * 0.4 + rsiScore * 0.2, 1.0)
  }

  /** The position `_initialize` creates and `analyze` updates: the highest close since entry while open. */
  datatype State = State(positionOpen: bool, highestPrice: Option<real>)

  const Initial: State := State(false, None)

  predicate Consistent(st: State)
  {
    st.positionOpen <==> st.highestPrice.Some?
  }

  /**
   * An open position: raise the highest close, then sell when the close is
   * at or below the trailing stop under it, or near the end of the data
   * (the trailing stop is reported when both hold); otherwise hold.
   */
  function TrailStep(cfg: Config, highest: real, bars: seq<Bar>, index: nat): (State, Signal)
    requires index < |bars|
  {
    var bar := bars[index];
    var h := Raised(highest, bar.close);
    var trailingStopPrice := StopLossPrice(h, cfg.trailingStopPct);
    if bar.close <= trailingStopPrice || index >= |bars| - 3 then
      (State(false, None), BarSignal(bar, Sell, 0.8, if bar.close <= trailingStopPrice then TrailingStop else EndOfDay))
    else (State(true, Some(h)), HoldAt(bar, Monitoring))
  }

  /**
   * One call of `analyze` as a function of the state before it: hold in
   * the warm-up; when flat, enter at the close on a confirmed gap up; when
   * open, follow the trailing stop.
   */
  function Step(cfg: Config, st: State, bars: seq<Bar>, index: nat, r: Readings): (State, Signal)
    requires index < |bars| && Sane(r) && cfg.gapThreshold != 0.0 && cfg.volumeRatioMin != 0.0
  {
    var bar := bars[index];
    if WarmingUp(cfg, index) then (st, HoldAt(bar, InsufficientData))
    else if !st.positionOpen && EntrySignal(cfg, r) then
      (State(true, Some(bar.close)), BarSignal(bar, Buy, EntryConfidence(cfg, r), GapUp))
    else if st.positionOpen && st.highestPrice.Some? then TrailStep(cfg, st.highestPrice.value, bars, index)
    else (st, HoldAt(bar, Monitoring))
  }

  class MorningMomentumStrategy {
    const cfg: Config
    const info: StrategyInfo
    var positionOpen: bool
    var highestPrice: Option<real>

    function Snapshot(): State
      reads this
    {
      State(positionOpen, highestPrice)
    }

    /** `BaseStrategy.__init__` followed by `_initialize`: flat, with no highest price. */
    constructor (parameters: Option<Params>)
      ensures cfg == FromParams(if parameters.Some? then parameters.value else map[])
      ensures info.name == "MorningMomentumStrategy" && info.description == Description(cfg)
      ensures Snapshot() == Initial
    {
      var base := NewStrategyInfo("MorningMomentumStrategy", Some("Morning Momentum Strategy for intraday trading"), parameters);
      cfg := FromParams(base.parameters);
      info := base.(description := Description(FromParams(base.parameters)));
      positionOpen, highestPrice := false, None;
    }

    /** `analyze` on bar `index`. */
    method Analyze(bars: seq<Bar>, index: nat) returns (s: Signal)
      requires Windows(cfg) && index < |bars| && PositiveBars(bars)
      requires cfg.gapThreshold != 0.0 && cfg.volumeRatioMin != 0.0
      modifies this
      ensures !WarmingUp(cfg, index) ==>
                (Snapshot(), s) == Step(cfg, old(Snapshot()), bars, index, ReadingsAt(cfg, bars, index))
      ensures WarmingUp(cfg, index) ==> Snapshot() == old(Snapshot()) && s == HoldAt(bars[index], InsufficientData)
    {
      var bar := bars[index];
      if WarmingUp(cfg, index) {
        return HoldAt(bar, InsufficientData);
      }
      var r := ReadingsAt(cfg, bars, index);
      var isMarketClosePeriod := index >= |bars| - 3;
      if !positionOpen {
        if EntrySignal(cfg, r) {
          positionOpen := true;
          highestPrice := Some(bar.close);
          var confidence := EntryConfidence(cfg, r);
          return BarSignal(bar, Buy, confidence, GapUp);
        }
      }
      if positionOpen && highestPrice.Some? {
        if bar.close > highestPrice.value {
          highestPrice := Some(bar.close);
        }
        var trailingStopPrice := StopLossPrice(highestPrice.value, cfg.trailingStopPct);
        if bar.close <= trailingStopPrice || isMarketClosePeriod {
          positionOpen := false;
          highestPrice := None;
          var reason := if bar.close <= trailingStopPrice then TrailingStop else EndOfDay;
          return BarSignal(bar, Sell, 0.8, reason);
        }
      }
      return HoldAt(bar, Monitoring);
    }
  }

  /** A step keeps "open exactly when a highest price is recorded". */
  lemma StepConsistent(cfg: Config, st: State, bars: seq<Bar>, index: nat, r: Readings)
    requires index < |bars| && Sane(r) && cfg.gapThreshold != 0.0 && cfg.volumeRatioMin != 0.0 && Consistent(st)
    ensures Consistent(Step(cfg, st, bars, index, r).0)
  {
  }

  /** Each step moves the position flag as its signal says. */
  lemma StepFollows(cfg: Config, st: State, bars: seq<Bar>, index: nat, r: Readings)
    requires index < |bars| && Sane(r) && cfg.gapThreshold != 0.0 && cfg.volumeRatioMin != 0.0
    ensures Follows(st.positionOpen, Step(cfg, st, bars, index, r).1.action, Step(cfg, st, bars, index, r).0.positionOpen)
  {
  }

  /**
   * Past the warm-up, a flat strategy buys exactly when all three filters
   * pass, records the close as the highest price, and with positive
   * thresholds reports a confidence in (0.4, 1].
   */
  lemma EntryConditions(cfg: Config, st: State, bars: seq<Bar>, index: nat, r: Readings)
    requires index < |bars| && Sane(r) && cfg.gapThreshold != 0.0 && cfg.volumeRatioMin != 0.0
    requires !WarmingUp(cfg, index) && !st.positionOpen
    ensures var (st', s) := Step(cfg, st, bars, index, r);
            (s.action == Buy <==>
               r.gap >= cfg.gapThreshold && Lt(r.rsi, Some(cfg.rsiMax)) && r.volumeRatio >= cfg.volumeRatioMin) &&
            (s.action == Buy ==> st' == State(true, Some(bars[index].close)) && s.confidence <= 1.0) &&
            (s.action == Buy && cfg.gapThreshold > 0.0 && cfg.volumeRatioMin > 0.0 ==> s.confidence > 0.4) &&
            (s.action != Buy ==> s.action == Hold && st' == st)
  {
  }

  /**
   * An open position sells exactly when the close is at or below the
   * trailing stop under the raised highest close, or near the end of the
   * data; otherwise it holds with the highest close raised to this close.
   * With a positive percentage and a positive close, a new high never
   * trips the trailing stop.
   */
  lemma TrailingExit(cfg: Config, st: State, bars: seq<Bar>, index: nat, r: Readings)
    requires index < |bars| && Sane(r) && cfg.gapThreshold != 0.0 && cfg.volumeRatioMin != 0.0
    requires !WarmingUp(cfg, index) && st.positionOpen && st.highestPrice.Some?
    ensures var (st', s) := Step(cfg, st, bars, index, r);
            var c, h := bars[index].close, Raised(st.highestPrice.value, bars[index].close);
            (s.action == Sell <==> c <= StopLossPrice(h, cfg.trailingStopPct) || index >= |bars| - 3) &&
            (s.action == Sell ==> st' == State(false, None) && s.confidence == 0.8) &&
            (s.action == Sell && c <= StopLossPrice(h, cfg.trailingStopPct) ==> s.reason == TrailingStop) &&
            (s.action == Hold ==> st' == State(true, Some(h)) && h >= st.highestPrice.value) &&
            (cfg.trailingStopPct > 0.0 && c > 0.0 && c >= st.highestPrice.value ==> s.reason != TrailingStop)
  {
    var c, h := bars[index].close, Raised(st.highestPrice.value, bars[index].close);
    if cfg.trailingStopPct > 0.0 && c > 0.0 && c >= st.highestPrice.value {
      assert h == c;
      assert c * (cfg.trailingStopPct / 100.0) > 0.0;
      assert StopLossPrice(h, cfg.trailingStopPct) < c;
    }
  }

  /** Every bar's readings are sane. */
  predicate AllSane(rs: seq<Readings>)
  {
    forall k :: 0 <= k < |rs| ==> Sane(rs[k])
  }

  /** The states `analyze` passes through on bars 0..n-1 in order, bar k read with `rs[k]`. */
  function Trace(cfg: Config, st: State, bars: seq<Bar>, rs: seq<Readings>, n: nat): (t: seq<State>)
    requires n <= |bars| && n <= |rs| && AllSane(rs) && cfg.gapThreshold != 0.0 && cfg.volumeRatioMin != 0.0
    ensures |t| == n + 1 && t[0] == st
    ensures forall k :: 0 <= k < n ==> t[k + 1] == Step(cfg, t[k], bars, k, rs[k]).0
  {
    if n == 0 then [st]
    else
      var t := Trace(cfg, st, bars, rs, n - 1);
      t + [Step(cfg, t[n - 1], bars, n - 1, rs[n - 1]).0]
  }

  function Actions(cfg: Config, st: State, bars: seq<Bar>, rs: seq<Readings>, n: nat): (a: seq<Action>)
    requires n <= |bars| && n <= |rs| && AllSane(rs) && cfg.gapThreshold != 0.0 && cfg.volumeRatioMin != 0.0
    ensures |a| == n
  {
    var t := Trace(cfg, st, bars, rs, n);
    seq(n, k requires 0 <= k < n => Step(cfg, t[k], bars, k, rs[k]).1.action)
  }

  /** Over a run from a fresh strategy, buys and sells alternate starting with a buy; it ends open iff the last trade was a buy. */
  lemma RunAlternates(cfg: Config, bars: seq<Bar>, rs: seq<Readings>, n: nat)
    requires n <= |bars| && n <= |rs| && AllSane(rs) && cfg.gapThreshold != 0.0 && cfg.volumeRatioMin != 0.0
    ensures var t, tr := Trace(cfg, Initial, bars, rs, n), Trades(Actions(cfg, Initial, bars, rs, n));
            (forall j :: 0 <= j < |tr| - 1 ==> tr[j] != tr[j + 1]) &&
            (|tr| > 0 ==> tr[0] == Buy) &&
            (t[n].positionOpen <==> |tr| > 0 && tr[|tr| - 1] == Buy)
  {
    var t := Trace(cfg, Initial, bars, rs, n);
    var opens := seq(n + 1, k requires 0 <= k <= n => t[k].positionOpen);
    var actions := Actions(cfg, Initial, bars, rs, n);
    forall k | 0 <= k < n ensures Follows(opens[k], actions[k], opens[k + 1]) {
      StepFollows(cfg, t[k], bars, k, rs[k]);
    }
    TradesAlternate(opens, actions);
  }

  /**
   * Over a run from a fresh strategy the state stays consistent, and
   * whenever the position is open after bar n-1, it was entered at some
   * bar e past the warm-up and the recorded highest price is the highest
   * close of bars e..n-1.
   */
  lemma {:induction false} RunTracksHighestClose(cfg: Config, bars: seq<Bar>, rs: seq<Readings>, n: nat)
    requires n <= |bars| && n <= |rs| && AllSane(rs) && cfg.gapThreshold != 0.0 && cfg.volumeRatioMin != 0.0
    ensures Tracks(cfg, Trace(cfg, Initial, bars, rs, n)[n], bars, n)
  {
    if n > 0 {
      var t, before := Trace(cfg, Initial, bars, rs, n), Trace(cfg, Initial, bars, rs, n - 1);
      RunTracksHighestClose(cfg, bars, rs, n - 1);
      assert before[n - 1] == t[n - 1];
      assert t[n] == Step(cfg, t[n - 1], bars, n - 1, rs[n - 1]).0;
      assert Sane(rs[n - 1]);
      StepTracks(cfg, t[n - 1], bars, n - 1, rs[n - 1]);
    }
  }

  /** The run invariant after bar n-1: consistent, and an open position holds the highest close since its entry bar. */
  predicate Tracks(cfg: Config, st: State, bars: seq<Bar>, n: nat)
    requires n <= |bars|
  {
    Consistent(st) &&
    (st.positionOpen ==>
       exists e :: 0 <= e < n && !WarmingUp(cfg, e) &&
                   st.highestPrice == Some(Max(Closes(bars)[e..n])))
  }

  /** One call of `analyze` keeps the run invariant. */
  lemma StepTracks(cfg: Config, st: State, bars: seq<Bar>, k: nat, r: Readings)
    requires k < |bars| && Sane(r) && cfg.gapThreshold != 0.0 && cfg.volumeRatioMin != 0.0
    requires Tracks(cfg, st, bars, k)
    ensures Tracks(cfg, Step(cfg, st, bars, k, r).0, bars, k + 1)
  {
    StepConsistent(cfg, st, bars, k, r);
    var st' := Step(cfg, st, bars, k, r).0;
    var closes := Closes(bars);
    if st'.positionOpen {
      if !WarmingUp(cfg, k) && !st.positionOpen && EntrySignal(cfg, r) {
        assert closes[k..k + 1] == [bars[k].close];
      } else if st.positionOpen {
        var e :| 0 <= e < k && !WarmingUp(cfg, e) &&
                 st.highestPrice == Some(Max(closes[e..k]));
        assert !WarmingUp(cfg, k);
        HoldRaisesHighest(cfg, st, bars, k, r, e);
      }
    }
  }

  /** A hold of an open position raises the recorded highest close of bars e..k-1 to that of bars e..k. */
  lemma HoldRaisesHighest(cfg: Config, st: State, bars: seq<Bar>, k: nat, r: Readings, e: nat)
    requires e < k < |bars| && Sane(r) && cfg.gapThreshold != 0.0 && cfg.volumeRatioMin != 0.0 && !WarmingUp(cfg, k)
    requires st.positionOpen && st.highestPrice == Some(Max(Closes(bars)[e..k]))
    ensures Step(cfg, st, bars, k, r).0.positionOpen ==>
              Step(cfg, st, bars, k, r).0 == State(true, Some(Max(Closes(bars)[e..k + 1])))
  {
    TrailingExit(cfg, st, bars, k, r);
    var closes := Closes(bars);
    assert closes[e..k + 1][..k - e] == closes[e..k];
    assert closes[e..k + 1][k - e] == bars[k].close;
  }

  /**
   * `validate_parameters`: a positive gap threshold, an RSI period of at
   * least 2, an RSI ceiling within [0, 100] and a positive volume ratio
   * minimum, checked in that order.
   */
  function Validate(p: Params): (v: Validation)
    ensures v == Accepted <==>
            var cfg := FromParams(p);
            cfg.gapThreshold > 0.0 && cfg.rsiPeriod >= 2.0 && 0.0 <= cfg.rsiMax <= 100.0 && cfg.volumeRatioMin > 0.0
    ensures FromParams(p).gapThreshold <= 0.0 ==> v == Rejected("Gap threshold must be positive")
  {
    var gap, period, rsiMax, ratio :=
      Get(p, "gap_threshold", 2.0), Get(p, "rsi_period", 5.0), Get(p, "rsi_max", 70.0), Get(p, "volume_ratio_min", 2.0);
    if gap <= 0.0 then Rejected("Gap threshold must be positive")
    else if period < 2.0 then Rejected("RSI period must be at least 2")
    else if rsiMax < 0.0 || rsiMax > 100.0 then Rejected("RSI max must be between 0 and 100")
    else if ratio <= 0.0 then Rejected("Volume ratio min must be positive")
    else Accepted
  }
}

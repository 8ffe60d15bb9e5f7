/**
 * The sector momentum strategy: buy a stock that leads its sector (a
 * strong 20-bar return), trades on a volume surge, has its RSI within a
 * momentum band and closes above its trend EMA; then exit on a trailing
 * stop under the highest close, a close below the EMA, an overbought RSI
 * or near the end of the data.
 */
module SectorMomentum {
  import opened Wrappers
  import opened Series
  import opened Base
  import opened Indicators

  /** The parameters `_initialize` reads, with their defaults. */
  datatype Config = Config(
    rsiPeriod: real,
    rsiMin: real,
    rsiMax: real,
    volumeSurgeThreshold: real,
    emaTrendPeriod: real,
    trailingStopPct: real)

  function FromParams(p: Params): (cfg: Config)
    ensures p == map[] ==> cfg == Config(14.0, 50.0, 75.0, 2.0, 20.0, 2.5)
  {
    Config(Get(p, "rsi_period", 14.0), Get(p, "rsi_min", 50.0), Get(p, "rsi_max", 75.0),
           Get(p, "volume_surge_threshold", 2.0), Get(p, "ema_trend_period", 20.0), Get(p, "trailing_stop_pct", 2.5))
  }

  /** The description `_initialize` sets: "Sector Momentum (RSI <min>-<max>, vol><v>x)". */
  function Description(cfg: Config): (t: Text)
    ensures t.Format? && t.args == [cfg.rsiMin, cfg.rsiMax, cfg.volumeSurgeThreshold]
  {
    Format("Sector Momentum (RSI {}-{}, vol>{}x)", [cfg.rsiMin, cfg.rsiMax, cfg.volumeSurgeThreshold])
  }

  /** A whole RSI window for `rolling`, and an EMA span `ewm` accepts (at least 1, not necessarily whole). */
  predicate Windows(cfg: Config)
  {
    Window(cfg.rsiPeriod) && Span(cfg.emaTrendPeriod)
  }

  /** The warm-up: index < max(rsi_period + 1, ema_trend_period). */
  predicate WarmingUp(cfg: Config, index: nat)
  {
    (index as real) < cfg.rsiPeriod + 1.0 || (index as real) < cfg.emaTrendPeriod
  }

  /**
   * `_check_sector_leadership`: false before bar 20, then whether the return
   * over the last 20 bars exceeds 3%. A zero base close divides by zero in
   * numpy, an infinite return exactly when the close is positive.
   */
  function LeadsSector(bars: seq<Bar>, index: nat): (leading: bool)
    requires index < |bars|
    ensures index < 20 ==> !leading
    ensures index >= 20 && bars[index - 20].close > 0.0 ==>
              (leading <==> bars[index].close > bars[index - 20].close * 1.03)
  {
    if index < 20 then false
    else
      var base, close := bars[index - 20].close, bars[index].close;
      if base == 0.0 then close > 0.0
      else
        var recentReturn := (close - base) / base;
        assert base > 0.0 ==> (recentReturn > 0.03 <==> close - base > 0.03 * base) by {
          if base > 0.0 {
            assert recentReturn * base == close - base;
          }
        }
        recentReturn > 0.03
  }

  /** The indicator values `analyze` reads at the current bar. */
  datatype Readings = Readings(rsi: Option<real>, ema: real, volumeRatio: real, leading: bool)

  /** An RSI that is NaN or within [0, 100]. */
  predicate Sane(r: Readings)
  {
    r.rsi.Some? ==> 0.0 <= r.rsi.value <= 100.0
  }

  function ReadingsAt(cfg: Config, bars: seq<Bar>, index: nat): (r: Readings)
    requires Windows(cfg) && !WarmingUp(cfg, index) && index < |bars|
    ensures Sane(r)
    ensures r == Readings(RsiAt(Closes(bars), Len(cfg.rsiPeriod), index), EmaAt(Closes(bars), cfg.emaTrendPeriod, index),
                          RecentVolumeRatio(bars, index), LeadsSector(bars, index))
  {
    var rsi := RsiAt(Closes(bars), Len(cfg.rsiPeriod), index);
    var ema := EmaAt(Closes(bars), cfg.emaTrendPeriod, index);
    if rsi.Some? then
      RsiRange(Closes(bars), Len(cfg.rsiPeriod), index);
      Readings(rsi, ema, RecentVolumeRatio(bars, index), LeadsSector(bars, index))
    else Readings(rsi, ema, RecentVolumeRatio(bars, index), LeadsSector(bars, index))
  }

  /** The entry test: leadership, a volume surge, the RSI within [rsi_min, rsi_max] (never a NaN) and a close above the EMA. */
  predicate EntrySignal(cfg: Config, close: real, r: Readings)
  {
    r.leading && r.volumeRatio >= cfg.volumeSurgeThreshold &&
    Le(Some(cfg.rsiMin), r.rsi) && Le(r.rsi, Some(cfg.rsiMax)) && close > r.ema
  }

  /**
   * The entry confidence: 0.4, plus 0.3 times the volume ratio over twice
   * its threshold, plus 0.3 times the RSI's position within the band,
   * capped at 1.
   */
  function EntryConfidence(cfg: Config, close: real, r: Readings): (c: real)
    requires EntrySignal(cfg, close, r) && cfg.volumeSurgeThreshold != 0.0 && cfg.rsiMax != cfg.rsiMin
    ensures c <= 1.0
    ensures cfg.volumeSurgeThreshold > 0.0 ==> c >= 0.55
  {
    var volumeScore := r.volumeRatio / (cfg.volumeSurgeThreshold * 2.0);
    var rsiScore := (r.rsi.value - cfg.rsiMin) / (cfg.rsiMax - cfg.rsiMin);
    assert rsiScore >= 0.0 by {
      assert cfg.rsiMax - cfg.rsiMin > 0.0;
    }
    assert cfg.volumeSurgeThreshold > 0.0 ==> volumeScore >= 0.5 by {
      if cfg.volumeSurgeThreshold > 0.0 {
        assert volumeScore * (cfg.volumeSurgeThreshold * 2.0) == r.volumeRatio;
      }
    }
    MinReal(0.4 + volumeScore * 0.3 + rsiScore * 0.3, 1.0)
  }

  /** The state `_initialize` creates and `analyze` updates. */
  datatype State = State(positionOpen: bool, entryPrice: Option<real>, highestPrice: Option<real>, sectorSelected: bool)

  const Initial: State := State(false, None, None, false)

  /** Open exactly when an entry and a highest price are recorded; an open position has selected its sector. */
  predicate Consistent(st: State)
  {
    (st.positionOpen <==> st.entryPrice.Some?) && (st.positionOpen <==> st.highestPrice.Some?) &&
    (st.positionOpen ==> st.sectorSelected)
  }

  /** The exits of an open position, tried after the highest close is raised to `h`. */
  function Exits(h: real, cfg: Config, bars: seq<Bar>, index: nat, r: Readings): seq<Exit>
    requires index < |bars|
  {
    var close := bars[index].close;
    [Exit(close <= StopLossPrice(h, cfg.trailingStopPct), TrailingStop, 0.9),
     Exit(close < r.ema, TrendReversal, 0.8),
     Exit(Gt(r.rsi, Some(80.0)), RsiOverboughtExit, 0.8),
     Exit(index >= |bars| - 3, EndOfDay, 0.8)]
  }

  /**
   * An open position: raise the highest close, then take the first exit
   * that fires, which clears the position but keeps the sector selected;
   * otherwise hold with the raised highest close.
   */
  function ExitStep(cfg: Config, st: State, bars: seq<Bar>, index: nat, r: Readings): (State, Signal)
    requires index < |bars| && st.highestPrice.Some?
  {
    var h := Raised(st.highestPrice.value, bars[index].close);
    match FirstExit(Exits(h, cfg, bars, index, r))
    case Some(e) => (State(false, None, None, st.sectorSelected), BarSignal(bars[index], Sell, e.confidence, e.reason))
    case None => (st.(highestPrice := Some(h)), HoldAt(bars[index], Monitoring))
  }

  /**
   * One call of `analyze` as a function of the state before it: hold in
   * the warm-up; when flat, enter at the close when every filter passes;
   * when open, take the first exit that fires.
   */
  function Step(cfg: Config, st: State, bars: seq<Bar>, index: nat, r: Readings): (State, Signal)
    requires index < |bars| && cfg.volumeSurgeThreshold != 0.0 && cfg.rsiMax != cfg.rsiMin
  {
    var bar := bars[index];
    if WarmingUp(cfg, index) then (st, HoldAt(bar, InsufficientData))
    else if !st.positionOpen && EntrySignal(cfg, bar.close, r) then
      (State(true, Some(bar.close), Some(bar.close), true),
       BarSignal(bar, Buy, EntryConfidence(cfg, bar.close, r), SectorLeadership))
    else if st.positionOpen && st.entryPrice.Some? && st.highestPrice.Some? then ExitStep(cfg, st, bars, index, r)
    else (st, HoldAt(bar, Monitoring))
  }

  class SectorMomentumStrategy {
    const cfg: Config
    const info: StrategyInfo
    var positionOpen: bool
    var entryPrice: Option<real>
    var highestPrice: Option<real>
    var sectorSelected: bool

    function Snapshot(): State
      reads this
    {
      State(positionOpen, entryPrice, highestPrice, sectorSelected)
    }

    /** `BaseStrategy.__init__` followed by `_initialize`: flat, no sector selected. */
    constructor (parameters: Option<Params>)
      ensures cfg == FromParams(if parameters.Some? then parameters.value else map[])
      ensures info.name == "SectorMomentumStrategy" && info.description == Description(cfg)
      ensures Snapshot() == Initial
    {
      var base := NewStrategyInfo("SectorMomentumStrategy", Some("Sector Momentum Strategy for intraday trading"), parameters);
      cfg := FromParams(base.parameters);
      info := base.(description := Description(FromParams(base.parameters)));
      positionOpen, entryPrice, highestPrice, sectorSelected := false, None, None, false;
    }

    /** `analyze` on bar `index`. */
    method Analyze(bars: seq<Bar>, index: nat) returns (s: Signal)
      requires Windows(cfg) && index < |bars| && cfg.volumeSurgeThreshold != 0.0 && cfg.rsiMax != cfg.rsiMin
      modifies this
      ensures !WarmingUp(cfg, index) ==>
                (Snapshot(), s) == Step(cfg, old(Snapshot()), bars, index, ReadingsAt(cfg, bars, index))
      ensures WarmingUp(cfg, index) ==> Snapshot() == old(Snapshot()) && s == HoldAt(bars[index], InsufficientData)
    {
      var bar := bars[index];
      if WarmingUp(cfg, index) {
        return HoldAt(bar, InsufficientData);
      }
      var r := ReadingsAt(cfg, bars, index);
      var isClosingPeriod := index >= |bars| - 3;
      if !positionOpen {
        if EntrySignal(cfg, bar.close, r) {
          positionOpen := true;
          entryPrice := Some(bar.close);
          highestPrice := Some(bar.close);
          sectorSelected := true;
          var confidence := EntryConfidence(cfg, bar.close, r);
          return BarSignal(bar, Buy, confidence, SectorLeadership);
        }
      }
      if positionOpen && entryPrice.Some? && highestPrice.Some? {
        if bar.close > highestPrice.value {
          highestPrice := Some(bar.close);
        }
        ghost var exits := Exits(highestPrice.value, cfg, bars, index, r);
        var trailingStopPrice := StopLossPrice(highestPrice.value, cfg.trailingStopPct);
        if bar.close <= trailingStopPrice {
          FirstExitIs(exits, 0);
          positionOpen, entryPrice, highestPrice := false, None, None;
          return BarSignal(bar, Sell, 0.9, TrailingStop);
        }
        if bar.close < r.ema {
          FirstExitIs(exits, 1);
          positionOpen, entryPrice, highestPrice := false, None, None;
          return BarSignal(bar, Sell, 0.8, TrendReversal);
        }
        if Gt(r.rsi, Some(80.0)) {
          FirstExitIs(exits, 2);
          positionOpen, entryPrice, highestPrice := false, None, None;
          return BarSignal(bar, Sell, 0.8, RsiOverboughtExit);
        }
        if isClosingPeriod {
          FirstExitIs(exits, 3);
          positionOpen, entryPrice, highestPrice := false, None, None;
          return BarSignal(bar, Sell, 0.8, EndOfDay);
        }
        assert FirstExit(exits) == None;
      }
      return HoldAt(bar, Monitoring);
    }
  }

  /** A step keeps the state consistent. */
  lemma StepConsistent(cfg: Config, st: State, bars: seq<Bar>, index: nat, r: Readings)
    requires index < |bars| && cfg.volumeSurgeThreshold != 0.0 && cfg.rsiMax != cfg.rsiMin && Consistent(st)
    ensures Consistent(Step(cfg, st, bars, index, r).0)
  {
  }

  /** Each step moves the position flag as its signal says. */
  lemma StepFollows(cfg: Config, st: State, bars: seq<Bar>, index: nat, r: Readings)
    requires index < |bars| && cfg.volumeSurgeThreshold != 0.0 && cfg.rsiMax != cfg.rsiMin
    ensures Follows(st.positionOpen, Step(cfg, st, bars, index, r).1.action, Step(cfg, st, bars, index, r).0.positionOpen)
  {
  }

  /** `sector_selected` is set by every entry and cleared by nothing. */
  lemma SectorSelectedSticks(cfg: Config, st: State, bars: seq<Bar>, index: nat, r: Readings)
    requires index < |bars| && cfg.volumeSurgeThreshold != 0.0 && cfg.rsiMax != cfg.rsiMin
    ensures var (st', s) := Step(cfg, st, bars, index, r);
            st'.sectorSelected <==> st.sectorSelected || s.action == Buy
  {
  }

  /**
   * Past the warm-up, a flat strategy buys exactly when every filter
   * passes, recording the close as both entry and highest price; with a
   * positive surge threshold the confidence lies in [0.55, 1].
   */
  lemma EntryConditions(cfg: Config, st: State, bars: seq<Bar>, index: nat, r: Readings)
    requires index < |bars| && cfg.volumeSurgeThreshold != 0.0 && cfg.rsiMax != cfg.rsiMin
    requires !WarmingUp(cfg, index) && !st.positionOpen
    ensures var (st', s) := Step(cfg, st, bars, index, r);
            var c := bars[index].close;
            (s.action == Buy <==>
               r.leading && r.volumeRatio >= cfg.volumeSurgeThreshold &&
               Le(Some(cfg.rsiMin), r.rsi) && Le(r.rsi, Some(cfg.rsiMax)) && c > r.ema) &&
            (s.action == Buy ==> st' == State(true, Some(c), Some(c), true) && s.confidence <= 1.0) &&
            (s.action == Buy && cfg.volumeSurgeThreshold > 0.0 ==> s.confidence >= 0.55) &&
            (s.action != Buy ==> s.action == Hold && st' == st)
  {
  }

  /**
   * Exit priority after the highest close is raised to h: the trailing stop
   * under h wins over everything; then a close below the EMA; then an RSI
   * above 80; then the end of the data. Every exit clears the position.
   */
  lemma ExitOrder(cfg: Config, st: State, bars: seq<Bar>, index: nat, r: Readings)
    requires index < |bars| && st.highestPrice.Some?
    ensures var (st', s) := ExitStep(cfg, st, bars, index, r);
            var c := bars[index].close;
            var h := Raised(st.highestPrice.value, c);
            var trail := StopLossPrice(h, cfg.trailingStopPct);
            (s.action == Sell <==> st' == State(false, None, None, st.sectorSelected)) &&
            (c <= trail ==> s.action == Sell && s.reason == TrailingStop && s.confidence == 0.9) &&
            (c > trail && c < r.ema ==> s.action == Sell && s.reason == TrendReversal) &&
            (c > trail && c >= r.ema && Gt(r.rsi, Some(80.0)) ==> s.action == Sell && s.reason == RsiOverboughtExit) &&
            (s.action == Hold <==> c > trail && c >= r.ema && !Gt(r.rsi, Some(80.0)) && index < |bars| - 3) &&
            (s.action == Hold ==> st' == st.(highestPrice := Some(h)))
  {
    var c := bars[index].close;
    var exits := Exits(Raised(st.highestPrice.value, c), cfg, bars, index, r);
    if exits[0].fires {
      FirstExitIs(exits, 0);
    } else if exits[1].fires {
      FirstExitIs(exits, 1);
    } else if exits[2].fires {
      FirstExitIs(exits, 2);
    } else if exits[3].fires {
      FirstExitIs(exits, 3);
    }
  }

  /**
   * After the warm-up, a step on an open position is the exit step, so
   * `ExitOrder` describes what `analyze` does there.
   */
  lemma OpenStepExits(cfg: Config, st: State, bars: seq<Bar>, index: nat, r: Readings)
    requires index < |bars| && cfg.volumeSurgeThreshold != 0.0 && cfg.rsiMax != cfg.rsiMin && !WarmingUp(cfg, index)
    requires st.positionOpen && Consistent(st)
    ensures Step(cfg, st, bars, index, r) == ExitStep(cfg, st, bars, index, r)
  {
  }

  /** The states `analyze` passes through on bars 0..n-1 in order, bar k read with `rs[k]`. */
  function Trace(cfg: Config, st: State, bars: seq<Bar>, rs: seq<Readings>, n: nat): (t: seq<State>)
    requires n <= |bars| && n <= |rs| && cfg.volumeSurgeThreshold != 0.0 && cfg.rsiMax != cfg.rsiMin
    ensures |t| == n + 1 && t[0] == st
    ensures forall k :: 0 <= k < n ==> t[k + 1] == Step(cfg, t[k], bars, k, rs[k]).0
  {
    if n == 0 then [st]
    else
      var t := Trace(cfg, st, bars, rs, n - 1);
      t + [Step(cfg, t[n - 1], bars, n - 1, rs[n - 1]).0]
  }

  function Actions(cfg: Config, st: State, bars: seq<Bar>, rs: seq<Readings>, n: nat): (a: seq<Action>)
    requires n <= |bars| && n <= |rs| && cfg.volumeSurgeThreshold != 0.0 && cfg.rsiMax != cfg.rsiMin
    ensures |a| == n
  {
    var t := Trace(cfg, st, bars, rs, n);
    seq(n, k requires 0 <= k < n => Step(cfg, t[k], bars, k, rs[k]).1.action)
  }

  /** Over a run from a fresh strategy, buys and sells alternate starting with a buy; it ends open iff the last trade was a buy. */
  lemma RunAlternates(cfg: Config, bars: seq<Bar>, rs: seq<Readings>, n: nat)
    requires n <= |bars| && n <= |rs| && cfg.volumeSurgeThreshold != 0.0 && cfg.rsiMax != cfg.rsiMin
    ensures var t, tr := Trace(cfg, Initial, bars, rs, n), Trades(Actions(cfg, Initial, bars, rs, n));
            (forall j :: 0 <= j < |tr| - 1 ==> tr[j] != tr[j + 1]) &&
            (|tr| > 0 ==> tr[0] == Buy) &&
            (t[n].positionOpen <==> |tr| > 0 && tr[|tr| - 1] == Buy)
  {
    var t := Trace(cfg, Initial, bars, rs, n);
    var opens := seq(n + 1, k requires 0 <= k <= n => t[k].positionOpen);
    var actions := Actions(cfg, Initial, bars, rs, n);
    forall k | 0 <= k < n ensures Follows(opens[k], actions[k], opens[k + 1]) {
      StepFollows(cfg, t[k], bars, k, rs[k]);
    }
    TradesAlternate(opens, actions);
  }

  /** A flag that starts false and is set exactly by the steps marked in `sets` is set iff some step was marked. */
  lemma {:induction false} StickyFlag(flags: seq<bool>, sets: seq<bool>)
    requires |flags| == |sets| + 1 && !flags[0]
    requires forall k :: 0 <= k < |sets| ==> (flags[k + 1] <==> flags[k] || sets[k])
    ensures flags[|sets|] <==> exists k :: 0 <= k < |sets| && sets[k]
  {
    var n := |sets|;
    if n > 0 {
      StickyFlag(flags[..n], sets[..n - 1]);
      assert flags[..n][n - 1] == flags[n - 1];
      if flags[n] && !sets[n - 1] {
        var k :| 0 <= k < n - 1 && sets[..n - 1][k];
        assert sets[k];
      }
      if !flags[n] {
        forall k | 0 <= k < n ensures !sets[k] {
          if k < n - 1 {
            assert sets[..n - 1][k] == sets[k];
          }
        }
      }
    }
  }

  /** Over a run from a fresh strategy, the sector is selected after bar n-1 exactly when some bar before n bought. */
  lemma RunSectorSelected(cfg: Config, bars: seq<Bar>, rs: seq<Readings>, n: nat)
    requires n <= |bars| && n <= |rs| && cfg.volumeSurgeThreshold != 0.0 && cfg.rsiMax != cfg.rsiMin
    ensures var t := Trace(cfg, Initial, bars, rs, n);
            t[n].sectorSelected <==> exists k :: 0 <= k < n && Step(cfg, t[k], bars, k, rs[k]).1.action == Buy
  {
    var t := Trace(cfg, Initial, bars, rs, n);
    var flags := seq(n + 1, k requires 0 <= k <= n => t[k].sectorSelected);
    var buys := seq(n, k requires 0 <= k < n => Step(cfg, t[k], bars, k, rs[k]).1.action == Buy);
    forall k | 0 <= k < n ensures flags[k + 1] <==> flags[k] || buys[k] {
      SectorSelectedSticks(cfg, t[k], bars, k, rs[k]);
    }
    StickyFlag(flags, buys);
    if flags[n] {
      var k :| 0 <= k < n && buys[k];
      assert Step(cfg, t[k], bars, k, rs[k]).1.action == Buy;
    } else {
      forall k | 0 <= k < n ensures Step(cfg, t[k], bars, k, rs[k]).1.action != Buy {
        assert !buys[k];
      }
    }
  }

  /**
   * Over a run from a fresh strategy the state stays consistent, and
   * whenever the position is open after bar n-1, it was entered at some
   * bar e past the warm-up at the close of bar e, and the recorded highest
   * price is the highest close of bars e..n-1.
   */
  lemma {:induction false} RunTracksHighestClose(cfg: Config, bars: seq<Bar>, rs: seq<Readings>, n: nat)
    requires n <= |bars| && n <= |rs| && cfg.volumeSurgeThreshold != 0.0 && cfg.rsiMax != cfg.rsiMin
    ensures Tracks(cfg, Trace(cfg, Initial, bars, rs, n)[n], bars, n)
  {
    if n > 0 {
      var t, before := Trace(cfg, Initial, bars, rs, n), Trace(cfg, Initial, bars, rs, n - 1);
      RunTracksHighestClose(cfg, bars, rs, n - 1);
      assert before[n - 1] == t[n - 1];
      assert t[n] == Step(cfg, t[n - 1], bars, n - 1, rs[n - 1]).0;
      StepTracks(cfg, t[n - 1], bars, n - 1, rs[n - 1]);
    }
  }

  /** The run invariant after bar n-1: consistent, and an open position holds the highest close since its entry bar. */
  predicate Tracks(cfg: Config, st: State, bars: seq<Bar>, n: nat)
    requires n <= |bars|
  {
    Consistent(st) &&
    (st.positionOpen ==>
       exists e :: 0 <= e < n && !WarmingUp(cfg, e) && st.entryPrice == Some(bars[e].close) &&
                   st.highestPrice == Some(Max(Closes(bars)[e..n])))
  }

  /** One call of `analyze` keeps the run invariant. */
  lemma StepTracks(cfg: Config, st: State, bars: seq<Bar>, k: nat, r: Readings)
    requires k < |bars| && cfg.volumeSurgeThreshold != 0.0 && cfg.rsiMax != cfg.rsiMin
    requires Tracks(cfg, st, bars, k)
    ensures Tracks(cfg, Step(cfg, st, bars, k, r).0, bars, k + 1)
  {
    StepConsistent(cfg, st, bars, k, r);
    var st' := Step(cfg, st, bars, k, r).0;
    var closes := Closes(bars);
    if st'.positionOpen {
      if !WarmingUp(cfg, k) && !st.positionOpen && EntrySignal(cfg, bars[k].close, r) {
        assert closes[k..k + 1] == [bars[k].close];
      } else if st.positionOpen {
        var e :| 0 <= e < k && !WarmingUp(cfg, e) && st.entryPrice == Some(bars[e].close) &&
                 st.highestPrice == Some(Max(closes[e..k]));
        assert !WarmingUp(cfg, k);
        HoldRaisesHighest(cfg, st, bars, k, r, e);
      }
    }
  }

  /** A hold of an open position raises the recorded highest close of bars e..k-1 to that of bars e..k. */
  lemma HoldRaisesHighest(cfg: Config, st: State, bars: seq<Bar>, k: nat, r: Readings, e: nat)
    requires e < k < |bars| && cfg.volumeSurgeThreshold != 0.0 && cfg.rsiMax != cfg.rsiMin && !WarmingUp(cfg, k)
    requires st.positionOpen && st.entryPrice.Some? && st.highestPrice == Some(Max(Closes(bars)[e..k]))
    ensures Step(cfg, st, bars, k, r).0.positionOpen ==>
              Step(cfg, st, bars, k, r).0 == st.(highestPrice := Some(Max(Closes(bars)[e..k + 1])))
  {
    ExitOrder(cfg, st, bars, k, r);
    var closes := Closes(bars);
    assert closes[e..k + 1][..k - e] == closes[e..k];
    assert closes[e..k + 1][k - e] == bars[k].close;
  }

  /**
   * `validate_parameters`: an RSI period of at least 2, both RSI bounds
   * within [0, 100], the lower below the upper and a positive surge
   * threshold, checked in that order.
   */
  function Validate(p: Params): (v: Validation)
    ensures v == Accepted <==>
            var cfg := FromParams(p);
            cfg.rsiPeriod >= 2.0 && 0.0 <= cfg.rsiMin < cfg.rsiMax <= 100.0 && cfg.volumeSurgeThreshold > 0.0
    ensures FromParams(p).rsiPeriod < 2.0 ==> v == Rejected("RSI period must be at least 2")
  {
    var period, rsiMin, rsiMax, surge :=
      Get(p, "rsi_period", 14.0), Get(p, "rsi_min", 50.0), Get(p, "rsi_max", 75.0), Get(p, "volume_surge_threshold", 2.0);
    if period < 2.0 then Rejected("RSI period must be at least 2")
    else if rsiMin < 0.0 || rsiMin > 100.0 then Rejected("RSI min must be between 0 and 100")
    else if rsiMax < 0.0 || rsiMax > 100.0 then Rejected("RSI max must be between 0 and 100")
    else if rsiMin >= rsiMax then Rejected("RSI min must be less than RSI max")
    else if surge <= 0.0 then Rejected("Volume surge threshold must be positive")
    else Accepted
  }
}

/**
 * The VWAP mean-reversion strategy: in an uptrend (fast EMA above slow
 * EMA), buy a close that lies far enough below the VWAP, and close the
 * position when the price returns to the VWAP, on a stop-loss, on a
 * take-profit or near the end of the data. It only ever enters long.
 */
module VwapReversion {
  import opened Wrappers
  import opened Base
  import opened Indicators

  /** The parameters `_initialize` reads, with their defaults. */
  datatype Config = Config(
    emaFast: real,
    emaSlow: real,
    vwapDeviationPct: real,
    takeProfitPct: real,
    stopLossPct: real)

  function FromParams(p: Params): (cfg: Config)
    ensures p == map[] ==> cfg == Config(20.0, 50.0, 0.5, 1.0, 1.5)
  {
    Config(Get(p, "ema_fast", 20.0), Get(p, "ema_slow", 50.0), Get(p, "vwap_deviation_pct", 0.5),
           Get(p, "take_profit_pct", 1.0), Get(p, "stop_loss_pct", 1.5))
  }

  /** The description `_initialize` sets: "VWAP Mean Reversion (EMA<fast>/<slow>)". */
  function Description(cfg: Config): (t: Text)
    ensures t.Format? && t.args == [cfg.emaFast, cfg.emaSlow]
  {
    Format("VWAP Mean Reversion (EMA{}/{})", [cfg.emaFast, cfg.emaSlow])
  }

  /** Both EMA spans are ones `ewm` accepts: at least 1, not necessarily whole. */
  predicate Windows(cfg: Config)
  {
    Span(cfg.emaFast) && Span(cfg.emaSlow)
  }

  /** The indicator values `analyze` reads at the current bar. */
  datatype Readings = Readings(vwap: Option<real>, emaFast: real, emaSlow: real)

  /** A VWAP that is NaN (no volume traded yet) or positive, as over positive bars. */
  predicate Sane(r: Readings)
  {
    r.vwap.Some? ==> r.vwap.value > 0.0
  }

  /**
   * The readings at `index`: the VWAP of the bars up to and including
   * `index` (computed on that slice), and both EMAs of the closes. The
   * slice gives the same VWAP as the whole series would.
   */
  function ReadingsAt(cfg: Config, bars: seq<Bar>, index: nat): (r: Readings)
    requires Windows(cfg) && index < |bars| && PositiveBars(bars)
    ensures Sane(r)
    ensures r.vwap == VwapAt(bars, index)
    ensures r.emaFast == EmaAt(Closes(bars), cfg.emaFast, index)
    ensures r.emaSlow == EmaAt(Closes(bars), cfg.emaSlow, index)
  {
    var upTo := bars[..index + 1];
    assert upTo[..index + 1] == bars[..index + 1];
    VwapNoLookAhead(upTo, bars, index);
    var vwap := VwapAt(upTo, index);
    if vwap.Some? then
      VwapPositive(bars, index);
      Readings(vwap, EmaAt(Closes(bars), cfg.emaFast, index), EmaAt(Closes(bars), cfg.emaSlow, index))
    else Readings(vwap, EmaAt(Closes(bars), cfg.emaFast, index), EmaAt(Closes(bars), cfg.emaSlow, index))
  }

  /** The close's deviation from the VWAP in percent; NaN when the VWAP is. */
  function Deviation(close: real, vwap: Option<real>): (d: Option<real>)
    requires vwap.Some? ==> vwap.value > 0.0
    ensures d.Some? <==> vwap.Some?
    ensures d.Some? ==> (d.value < 0.0 <==> close < vwap.value)
  {
    if vwap.Some? then
      var ratio := (close - vwap.value) / vwap.value;
      assert ratio < 0.0 <==> close - vwap.value < 0.0;
      Some(ratio * 100.0)
    else None
  }

  /** The position `_initialize` creates and `analyze` updates. */
  datatype State = State(positionOpen: bool, entryPrice: Option<real>)

  const Initial: State := State(false, None)

  predicate Consistent(st: State)
  {
    st.positionOpen <==> st.entryPrice.Some?
  }

  /** The warm-up: index < ema_slow + 1. */
  predicate WarmingUp(cfg: Config, index: nat)
  {
    (index as real) < cfg.emaSlow + 1.0
  }

  /** The long-entry test: an uptrend and a close more than the threshold below the VWAP. */
  predicate EntrySignal(cfg: Config, close: real, r: Readings)
    requires Sane(r)
  {
    r.emaFast > r.emaSlow && Lt(Deviation(close, r.vwap), Some(-cfg.vwapDeviationPct))
  }

  /**
   * The entry confidence min(0.5 + |dev| / (2 * threshold) * 0.5, 1). A
   * zero threshold divides by zero in numpy, giving +inf and so 1.0.
   */
  function EntryConfidence(cfg: Config, dev: real): (c: real)
    requires dev < -cfg.vwapDeviationPct
    ensures c <= 1.0
    ensures cfg.vwapDeviationPct > 0.0 ==> 0.75 < c
    ensures cfg.vwapDeviationPct == 0.0 ==> c == 1.0
  {
    var thr := cfg.vwapDeviationPct;
    if thr == 0.0 then 1.0
    else
      var share := Abs(dev) / (thr * 2.0);
      assert thr > 0.0 ==> share > 0.5 by {
        if thr > 0.0 {
          assert Abs(dev) > thr;
          assert share * (thr * 2.0) == Abs(dev);
        }
      }
      MinReal(0.5 + share * 0.5, 1.0)
  }

  /** The exits of an open position, in the order `analyze` tries them. */
  function Exits(cfg: Config, entry: real, bars: seq<Bar>, index: nat, r: Readings): seq<Exit>
    requires index < |bars|
  {
    var close := bars[index].close;
    [Exit(Ge(Some(close), r.vwap), VwapReversion, 0.8),
     Exit(close <= StopLossPrice(entry, cfg.stopLossPct), StopLoss, 0.9),
     Exit(close >= TakeProfitPrice(entry, cfg.takeProfitPct), TakeProfit, 0.9),
     Exit(index >= |bars| - 3, EndOfDay, 0.8)]
  }

  /** An open position: the first exit that fires closes it, otherwise hold. */
  function ExitStep(cfg: Config, st: State, bars: seq<Bar>, index: nat, r: Readings): (State, Signal)
    requires index < |bars| && st.entryPrice.Some?
  {
    match FirstExit(Exits(cfg, st.entryPrice.value, bars, index, r))
    case Some(e) => (State(false, None), BarSignal(bars[index], Sell, e.confidence, e.reason))
    case None => (st, HoldAt(bars[index], Monitoring))
  }

  /**
   * One call of `analyze` as a function of the state before it: hold in
   * the warm-up; when flat, enter long at the close on a dip in an uptrend;
   * when open, take the first exit that fires.
   */
  function Step(cfg: Config, st: State, bars: seq<Bar>, index: nat, r: Readings): (State, Signal)
    requires index < |bars| && Sane(r)
  {
    var bar := bars[index];
    if WarmingUp(cfg, index) then (st, HoldAt(bar, InsufficientData))
    else if !st.positionOpen && EntrySignal(cfg, bar.close, r) then
      var dev := Deviation(bar.close, r.vwap).value;
      (State(true, Some(bar.close)), BarSignal(bar, Buy, EntryConfidence(cfg, dev), VwapDip))
    else if st.positionOpen && st.entryPrice.Some? then ExitStep(cfg, st, bars, index, r)
    else (st, HoldAt(bar, Monitoring))
  }

  class VWAPReversionStrategy {
    const cfg: Config
    const info: StrategyInfo
    var positionOpen: bool
    var entryPrice: Option<real>

    function Snapshot(): State
      reads this
    {
      State(positionOpen, entryPrice)
    }

    /** `BaseStrategy.__init__` followed by `_initialize`: flat. */
    constructor (parameters: Option<Params>)
      ensures cfg == FromParams(if parameters.Some? then parameters.value else map[])
      ensures info.name == "VWAPReversionStrategy" && info.description == Description(cfg)
      ensures Snapshot() == Initial
    {
      var base := NewStrategyInfo("VWAPReversionStrategy", Some("VWAP Mean Reversion Strategy for intraday trading"), parameters);
      cfg := FromParams(base.parameters);
      info := base.(description := Description(FromParams(base.parameters)));
      positionOpen, entryPrice := false, None;
    }

    /** `analyze` on bar `index`. */
    method Analyze(bars: seq<Bar>, index: nat) returns (s: Signal)
      requires Windows(cfg) && index < |bars| && PositiveBars(bars)
      modifies this
      ensures (Snapshot(), s) == Step(cfg, old(Snapshot()), bars, index, ReadingsAt(cfg, bars, index))
    {
      var bar := bars[index];
      if WarmingUp(cfg, index) {
        return HoldAt(bar, InsufficientData);
      }
      var r := ReadingsAt(cfg, bars, index);
      var isUptrend := r.emaFast > r.emaSlow;
      var deviation := Deviation(bar.close, r.vwap);
      var isClosingPeriod := index >= |bars| - 3;
      if !positionOpen {
        if isUptrend && Lt(deviation, Some(-cfg.vwapDeviationPct)) {
          positionOpen := true;
          entryPrice := Some(bar.close);
          var confidence := EntryConfidence(cfg, deviation.value);
          return BarSignal(bar, Buy, confidence, VwapDip);
        }
      }
      if positionOpen && entryPrice.Some? {
        ghost var exits := Exits(cfg, entryPrice.value, bars, index, r);
        if Ge(Some(bar.close), r.vwap) {
          FirstExitIs(exits, 0);
          positionOpen, entryPrice := false, None;
          return BarSignal(bar, Sell, 0.8, VwapReversion);
        }
        var stopLossPrice := StopLossPrice(entryPrice.value, cfg.stopLossPct);
        if bar.close <= stopLossPrice {
          FirstExitIs(exits, 1);
          positionOpen, entryPrice := false, None;
          return BarSignal(bar, Sell, 0.9, StopLoss);
        }
        var takeProfitPrice := TakeProfitPrice(entryPrice.value, cfg.takeProfitPct);
        if bar.close >= takeProfitPrice {
          FirstExitIs(exits, 2);
          positionOpen, entryPrice := false, None;
          return BarSignal(bar, Sell, 0.9, TakeProfit);
        }
        if isClosingPeriod {
          FirstExitIs(exits, 3);
          positionOpen, entryPrice := false, None;
          return BarSignal(bar, Sell, 0.8, EndOfDay);
        }
        assert FirstExit(exits) == None;
      }
      return HoldAt(bar, Monitoring);
    }
  }

  /** A step keeps "open exactly when an entry price is recorded". */
  lemma StepConsistent(cfg: Config, st: State, bars: seq<Bar>, index: nat, r: Readings)
    requires index < |bars| && Sane(r) && Consistent(st)
    ensures Consistent(Step(cfg, st, bars, index, r).0)
  {
  }

  /** Each step moves the position flag as its signal says. */
  lemma StepFollows(cfg: Config, st: State, bars: seq<Bar>, index: nat, r: Readings)
    requires index < |bars| && Sane(r)
    ensures Follows(st.positionOpen, Step(cfg, st, bars, index, r).1.action, Step(cfg, st, bars, index, r).0.positionOpen)
  {
  }

  /**
   * Past the warm-up, a flat strategy buys exactly on a dip in an uptrend
   * and never sells: there is no short entry. With a non-negative
   * threshold a buy is always at a close below the VWAP.
   */
  lemma LongOnlyEntry(cfg: Config, st: State, bars: seq<Bar>, index: nat, r: Readings)
    requires index < |bars| && Sane(r) && !WarmingUp(cfg, index) && !st.positionOpen
    ensures var (st', s) := Step(cfg, st, bars, index, r);
            var close := bars[index].close;
            (s.action == Buy <==> r.emaFast > r.emaSlow && Lt(Deviation(close, r.vwap), Some(-cfg.vwapDeviationPct))) &&
            (s.action == Buy ==> st' == State(true, Some(close)) && s.confidence <= 1.0) &&
            (s.action == Buy && cfg.vwapDeviationPct >= 0.0 ==> close < r.vwap.value) &&
            s.action != Sell && (s.action == Hold ==> st' == st)
  {
  }

  /**
   * Exit priority: a return to the VWAP wins over everything; then the
   * stop-loss, the take-profit and the end of the data, each only when none
   * before it fires. Every exit goes flat.
   */
  lemma ExitOrder(cfg: Config, st: State, bars: seq<Bar>, index: nat, r: Readings)
    requires index < |bars| && st.entryPrice.Some?
    ensures var (st', s) := ExitStep(cfg, st, bars, index, r);
            var e, c := st.entryPrice.value, bars[index].close;
            (s.action == Sell <==> st' == State(false, None)) &&
            (Ge(Some(c), r.vwap) ==> s.action == Sell && s.reason == VwapReversion) &&
            (!Ge(Some(c), r.vwap) && c <= StopLossPrice(e, cfg.stopLossPct) ==> s.action == Sell && s.reason == StopLoss) &&
            ((!Ge(Some(c), r.vwap) && c > StopLossPrice(e, cfg.stopLossPct) && c >= TakeProfitPrice(e, cfg.takeProfitPct)) ==>
               s.action == Sell && s.reason == TakeProfit) &&
            (s.action == Hold <==>
               (!Ge(Some(c), r.vwap) && c > StopLossPrice(e, cfg.stopLossPct) &&
                c < TakeProfitPrice(e, cfg.takeProfitPct) && index < |bars| - 3))
  {
    var exits := Exits(cfg, st.entryPrice.value, bars, index, r);
    if exits[0].fires {
      FirstExitIs(exits, 0);
    } else if exits[1].fires {
      FirstExitIs(exits, 1);
    } else if exits[2].fires {
      FirstExitIs(exits, 2);
    } else if exits[3].fires {
      FirstExitIs(exits, 3);
    }
  }

  /** Every bar's readings are sane. */
  predicate AllSane(rs: seq<Readings>)
  {
    forall k :: 0 <= k < |rs| ==> Sane(rs[k])
  }

  /**
   * After the warm-up, a step on an open position is the exit step, so
   * `ExitOrder` describes what `analyze` does there.
   */
  lemma OpenStepExits(cfg: Config, st: State, bars: seq<Bar>, index: nat, r: Readings)
    requires index < |bars| && Sane(r) && !WarmingUp(cfg, index)
    requires st.positionOpen && Consistent(st)
    ensures Step(cfg, st, bars, index, r) == ExitStep(cfg, st, bars, index, r)
  {
  }

  /** The states `analyze` passes through on bars 0..n-1 in order, bar k read with `rs[k]`. */
  function Trace(cfg: Config, st: State, bars: seq<Bar>, rs: seq<Readings>, n: nat): (t: seq<State>)
    requires n <= |bars| && n <= |rs| && AllSane(rs)
    ensures |t| == n + 1 && t[0] == st
    ensures forall k :: 0 <= k < n ==> t[k + 1] == Step(cfg, t[k], bars, k, rs[k]).0
  {
    if n == 0 then [st]
    else
      var t := Trace(cfg, st, bars, rs, n - 1);
      t + [Step(cfg, t[n - 1], bars, n - 1, rs[n - 1]).0]
  }

  function Actions(cfg: Config, st: State, bars: seq<Bar>, rs: seq<Readings>, n: nat): (a: seq<Action>)
    requires n <= |bars| && n <= |rs| && AllSane(rs)
    ensures |a| == n
  {
    var t := Trace(cfg, st, bars, rs, n);
    seq(n, k requires 0 <= k < n => Step(cfg, t[k], bars, k, rs[k]).1.action)
  }

  /** Over a run from a fresh strategy, buys and sells alternate starting with a buy; it ends open iff the last trade was a buy. */
  lemma RunAlternates(cfg: Config, bars: seq<Bar>, rs: seq<Readings>, n: nat)
    requires n <= |bars| && n <= |rs| && AllSane(rs)
    ensures var t, tr := Trace(cfg, Initial, bars, rs, n), Trades(Actions(cfg, Initial, bars, rs, n));
            (forall j :: 0 <= j < |tr| - 1 ==> tr[j] != tr[j + 1]) &&
            (|tr| > 0 ==> tr[0] == Buy) &&
            (t[n].positionOpen <==> |tr| > 0 && tr[|tr| - 1] == Buy)
  {
    var t := Trace(cfg, Initial, bars, rs, n);
    var opens := seq(n + 1, k requires 0 <= k <= n => t[k].positionOpen);
    var actions := Actions(cfg, Initial, bars, rs, n);
    forall k | 0 <= k < n ensures Follows(opens[k], actions[k], opens[k + 1]) {
      StepFollows(cfg, t[k], bars, k, rs[k]);
    }
    TradesAlternate(opens, actions);
  }

  /**
   * `validate_parameters`: both EMA periods at least 2, fast below slow and
   * a positive deviation threshold, checked in that order.
   */
  function Validate(p: Params): (v: Validation)
    ensures v == Accepted <==>
            var cfg := FromParams(p); 2.0 <= cfg.emaFast < cfg.emaSlow && cfg.vwapDeviationPct > 0.0
    ensures FromParams(p).emaFast < 2.0 ==> v == Rejected("Fast EMA period must be at least 2")
  {
    var fast, slow, deviation := Get(p, "ema_fast", 20.0), Get(p, "ema_slow", 50.0), Get(p, "vwap_deviation_pct", 0.5);
    if fast < 2.0 then Rejected("Fast EMA period must be at least 2")
    else if slow < 2.0 then Rejected("Slow EMA period must be at least 2")
    else if fast >= slow then Rejected("Fast EMA must be less than slow EMA")
    else if deviation <= 0.0 then Rejected("VWAP deviation percentage must be positive")
    else Accepted
  }
}

/**
 * The intraday mean-reversion strategy: buy when the RSI is oversold
 * (more confidently near the lower Bollinger band), and close on an RSI
 * recovery, a return to the middle band, a take-profit, a stop-loss or
 * near the end of the data.
 */
module MeanReversionIntraday {
  import opened Wrappers
  import opened Base
  import opened Indicators

  /** The parameters `_initialize` reads, with their defaults. */
  datatype Config = Config(
    rsiPeriod: real,
    rsiOversold: real,
    rsiTarget: real,
    bbPeriod: real,
    bbStd: real,
    takeProfitPct: real,
    stopLossPct: real)

  function FromParams(p: Params): (cfg: Config)
    ensures p == map[] ==> cfg == Config(5.0, 25.0, 50.0, 20.0, 2.0, 2.0, 1.5)
  {
    Config(Get(p, "rsi_period", 5.0), Get(p, "rsi_oversold", 25.0), Get(p, "rsi_target", 50.0),
           Get(p, "bb_period", 20.0), Get(p, "bb_std", 2.0), Get(p, "take_profit_pct", 2.0),
           Get(p, "stop_loss_pct", 1.5))
  }

  /** The description `_initialize` sets: "Mean Reversion Intraday (RSI<period><<oversold>)". */
  function Description(cfg: Config): (t: Text)
    ensures t.Format? && t.args == [cfg.rsiPeriod, cfg.rsiOversold]
  {
    Format("Mean Reversion Intraday (RSI{}<{})", [cfg.rsiPeriod, cfg.rsiOversold])
  }

  predicate Windows(cfg: Config)
  {
    Window(cfg.rsiPeriod) && Window(cfg.bbPeriod)
  }

  /** The indicator values `analyze` reads at the current bar. */
  datatype Readings = Readings(rsi: Option<real>, lower: Option<real>, middle: Option<real>)

  /** An RSI that is NaN or lies in [0, 100], as every RSI the indicator produces does. */
  predicate Sane(r: Readings)
  {
    r.rsi.Some? ==> 0.0 <= r.rsi.value <= 100.0
  }

  /**
   * The readings at `index`: the RSI of the closes and the Bollinger bands
   * around their SMA; the rolling standard deviation `std` is supplied.
   */
  function ReadingsAt(cfg: Config, bars: seq<Bar>, index: nat, std: Option<real>): (r: Readings)
    requires Windows(cfg) && index < |bars| && (std.Some? ==> std.value >= 0.0)
    ensures Sane(r)
    ensures r.middle == SmaAt(Closes(bars), Len(cfg.bbPeriod), index)
  {
    var rsi := RsiAt(Closes(bars), Len(cfg.rsiPeriod), index);
    var bands := BollingerAt(Closes(bars), Len(cfg.bbPeriod), cfg.bbStd, std, index);
    if rsi.Some? then
      RsiRange(Closes(bars), Len(cfg.rsiPeriod), index);
      Readings(rsi, bands.lower, bands.middle)
    else Readings(rsi, bands.lower, bands.middle)
  }

  /** The position `_initialize` creates and `analyze` updates. */
  datatype State = State(positionOpen: bool, entryPrice: Option<real>)

  const Initial: State := State(false, None)

  predicate Consistent(st: State)
  {
    st.positionOpen <==> st.entryPrice.Some?
  }

  /** The warm-up: max(rsi_period + 1, bb_period) bars. */
  predicate WarmingUp(cfg: Config, index: nat)
  {
    (index as real) < cfg.rsiPeriod + 1.0 || (index as real) < cfg.bbPeriod
  }

  /**
   * The entry confidence: 0.5 plus half the relative depth below the
   * oversold level, capped at 1; then 0.2 more, capped at 1, when the close
   * is within 1% above the lower band.
   */
  function EntryConfidence(cfg: Config, rsi: real, close: real, lower: Option<real>): (c: real)
    requires 0.0 <= rsi < cfg.rsiOversold
    ensures 0.5 < c <= 1.0
    ensures Le(Some(close), if lower.Some? then Some(lower.value * 1.01) else None) ==> c >= 0.7
  {
    var depth := (cfg.rsiOversold - rsi) / cfg.rsiOversold;
    assert depth > 0.0;
    var base := MinReal(0.5 + depth * 0.5, 1.0);
    if lower.Some? && close <= lower.value * 1.01 then MinReal(base + 0.2, 1.0) else base
  }

  /** The exits of an open position, in the order `analyze` tries them. */
  function Exits(cfg: Config, entry: real, bars: seq<Bar>, index: nat, r: Readings): seq<Exit>
    requires index < |bars|
  {
    var close := bars[index].close;
    [Exit(Ge(r.rsi, Some(cfg.rsiTarget)), RsiReversion, 0.8),
     Exit(Ge(Some(close), r.middle), BollingerReversion, 0.8),
     Exit(close >= TakeProfitPrice(entry, cfg.takeProfitPct), TakeProfit, 0.9),
     Exit(close <= StopLossPrice(entry, cfg.stopLossPct), StopLoss, 0.9),
     Exit(index >= |bars| - 3, EndOfDay, 0.8)]
  }

  /** An open position: the first exit that fires closes it, otherwise hold. */
  function ExitStep(cfg: Config, st: State, bars: seq<Bar>, index: nat, r: Readings): (State, Signal)
    requires index < |bars| && st.entryPrice.Some?
  {
    match FirstExit(Exits(cfg, st.entryPrice.value, bars, index, r))
    case Some(e) => (State(false, None), BarSignal(bars[index], Sell, e.confidence, e.reason))
    case None => (st, HoldAt(bars[index], Monitoring))
  }

  /**
   * One call of `analyze` as a function of the state before it: hold in
   * the warm-up; when flat, an oversold RSI always enters at the close;
   * when open, take the first exit that fires.
   */
  function Step(cfg: Config, st: State, bars: seq<Bar>, index: nat, r: Readings): (State, Signal)
    requires index < |bars| && Sane(r)
  {
    var bar := bars[index];
    if WarmingUp(cfg, index) then (st, HoldAt(bar, InsufficientData))
    else if !st.positionOpen && Lt(r.rsi, Some(cfg.rsiOversold)) then
      (State(true, Some(bar.close)), BarSignal(bar, Buy, EntryConfidence(cfg, r.rsi.value, bar.close, r.lower), OversoldEntry))
    else if st.positionOpen && st.entryPrice.Some? then ExitStep(cfg, st, bars, index, r)
    else (st, HoldAt(bar, Monitoring))
  }

  class MeanReversionIntradayStrategy {
    const cfg: Config
    const info: StrategyInfo
    var positionOpen: bool
    var entryPrice: Option<real>

    function Snapshot(): State
      reads this
    {
      State(positionOpen, entryPrice)
    }

    /** `BaseStrategy.__init__` followed by `_initialize`: flat. */
    constructor (parameters: Option<Params>)
      ensures cfg == FromParams(if parameters.Some? then parameters.value else map[])
      ensures info.name == "MeanReversionIntradayStrategy" && info.description == Description(cfg)
      ensures Snapshot() == Initial
    {
      var base := NewStrategyInfo("MeanReversionIntradayStrategy", Some("Mean Reversion Intraday Strategy"), parameters);
      cfg := FromParams(base.parameters);
      info := base.(description := Description(FromParams(base.parameters)));
      positionOpen, entryPrice := false, None;
    }

    /** `analyze` on bar `index`, given the rolling standard deviation of the closes there. */
    method Analyze(bars: seq<Bar>, index: nat, std: Option<real>) returns (s: Signal)
      requires Windows(cfg) && index < |bars| && (std.Some? ==> std.value >= 0.0)
      modifies this
      ensures (Snapshot(), s) == Step(cfg, old(Snapshot()), bars, index, ReadingsAt(cfg, bars, index, std))
    {
      var bar := bars[index];
      if WarmingUp(cfg, index) {
        return HoldAt(bar, InsufficientData);
      }
      var r := ReadingsAt(cfg, bars, index, std);
      var isClosingPeriod := index >= |bars| - 3;
      if !positionOpen {
        if Lt(r.rsi, Some(cfg.rsiOversold)) {
          positionOpen := true;
          entryPrice := Some(bar.close);
          var confidence := EntryConfidence(cfg, r.rsi.value, bar.close, r.lower);
          return BarSignal(bar, Buy, confidence, OversoldEntry);
        }
      }
      if positionOpen && entryPrice.Some? {
        ghost var exits := Exits(cfg, entryPrice.value, bars, index, r);
        if Ge(r.rsi, Some(cfg.rsiTarget)) {
          FirstExitIs(exits, 0);
          positionOpen, entryPrice := false, None;
          return BarSignal(bar, Sell, 0.8, RsiReversion);
        }
        if Ge(Some(bar.close), r.middle) {
          FirstExitIs(exits, 1);
          positionOpen, entryPrice := false, None;
          return BarSignal(bar, Sell, 0.8, BollingerReversion);
        }
        var takeProfitPrice := TakeProfitPrice(entryPrice.value, cfg.takeProfitPct);
        if bar.close >= takeProfitPrice {
          FirstExitIs(exits, 2);
          positionOpen, entryPrice := false, None;
          return BarSignal(bar, Sell, 0.9, TakeProfit);
        }
        var stopLossPrice := StopLossPrice(entryPrice.value, cfg.stopLossPct);
        if bar.close <= stopLossPrice {
          FirstExitIs(exits, 3);
          positionOpen, entryPrice := false, None;
          return BarSignal(bar, Sell, 0.9, StopLoss);
        }
        if isClosingPeriod {
          FirstExitIs(exits, 4);
          positionOpen, entryPrice := false, None;
          return BarSignal(bar, Sell, 0.8, EndOfDay);
        }
        assert FirstExit(exits) == None;
      }
      return HoldAt(bar, Monitoring);
    }
  }

  /** A step keeps "open exactly when an entry price is recorded". */
  lemma StepConsistent(cfg: Config, st: State, bars: seq<Bar>, index: nat, r: Readings)
    requires index < |bars| && Sane(r) && Consistent(st)
    ensures Consistent(Step(cfg, st, bars, index, r).0)
  {
  }

  /** Each step moves the position flag as its signal says. */
  lemma StepFollows(cfg: Config, st: State, bars: seq<Bar>, index: nat, r: Readings)
    requires index < |bars| && Sane(r)
    ensures Follows(st.positionOpen, Step(cfg, st, bars, index, r).1.action, Step(cfg, st, bars, index, r).0.positionOpen)
  {
  }

  /**
   * Past the warm-up, a flat strategy buys exactly when the RSI is below the
   * oversold level: the lower band never blocks an entry, it only raises the
   * confidence, which lies in (0.5, 1].
   */
  lemma EntryOnOversold(cfg: Config, st: State, bars: seq<Bar>, index: nat, r: Readings)
    requires index < |bars| && Sane(r) && !WarmingUp(cfg, index) && !st.positionOpen
    ensures var (st', s) := Step(cfg, st, bars, index, r);
            (s.action == Buy <==> Lt(r.rsi, Some(cfg.rsiOversold))) &&
            (s.action == Buy ==> st' == State(true, Some(bars[index].close)) && 0.5 < s.confidence <= 1.0) &&
            (s.action != Buy ==> s.action == Hold && st' == st)
  {
  }

  /**
   * Exit priority: RSI back at the target wins over everything; then a close
   * at or above the middle band; then take-profit, stop-loss and the end of
   * the data, each only when none before it fires. Every exit goes flat.
   */
  lemma ExitOrder(cfg: Config, st: State, bars: seq<Bar>, index: nat, r: Readings)
    requires index < |bars| && st.entryPrice.Some?
    ensures var (st', s) := ExitStep(cfg, st, bars, index, r);
            var e, c := st.entryPrice.value, bars[index].close;
            (s.action == Sell <==> st' == State(false, None)) &&
            (Ge(r.rsi, Some(cfg.rsiTarget)) ==> s.action == Sell && s.reason == RsiReversion) &&
            (!Ge(r.rsi, Some(cfg.rsiTarget)) && Ge(Some(c), r.middle) ==> s.action == Sell && s.reason == BollingerReversion) &&
            (!Ge(r.rsi, Some(cfg.rsiTarget)) && !Ge(Some(c), r.middle) && c >= TakeProfitPrice(e, cfg.takeProfitPct) ==>
               s.action == Sell && s.reason == TakeProfit) &&
            ((!Ge(r.rsi, Some(cfg.rsiTarget)) && !Ge(Some(c), r.middle) && c < TakeProfitPrice(e, cfg.takeProfitPct) &&
              c <= StopLossPrice(e, cfg.stopLossPct)) ==> s.action == Sell && s.reason == StopLoss) &&
            (s.action == Hold <==>
               (!Ge(r.rsi, Some(cfg.rsiTarget)) && !Ge(Some(c), r.middle) &&
                c < TakeProfitPrice(e, cfg.takeProfitPct) && c > StopLossPrice(e, cfg.stopLossPct) && index < |bars| - 3))
  {
    var exits := Exits(cfg, st.entryPrice.value, bars, index, r);
    if exits[0].fires {
      FirstExitIs(exits, 0);
    } else if exits[1].fires {
      FirstExitIs(exits, 1);
    } else if exits[2].fires {
      FirstExitIs(exits, 2);
    } else if exits[3].fires {
      FirstExitIs(exits, 3);
    } else if exits[4].fires {
      FirstExitIs(exits, 4);
    }
  }

  /** Every bar's readings are sane. */
  predicate AllSane(rs: seq<Readings>)
  {
    forall k :: 0 <= k < |rs| ==> Sane(rs[k])
  }

  /**
   * After the warm-up, a step on an open position is the exit step, so
   * `ExitOrder` describes what `analyze` does there.
   */
  lemma OpenStepExits(cfg: Config, st: State, bars: seq<Bar>, index: nat, r: Readings)
    requires index < |bars| && Sane(r) && !WarmingUp(cfg, index)
    requires st.positionOpen && Consistent(st)
    ensures Step(cfg, st, bars, index, r) == ExitStep(cfg, st, bars, index, r)
  {
  }

  /** The states `analyze` passes through on bars 0..n-1 in order, bar k read with `rs[k]`. */
  function Trace(cfg: Config, st: State, bars: seq<Bar>, rs: seq<Readings>, n: nat): (t: seq<State>)
    requires n <= |bars| && n <= |rs| && AllSane(rs)
    ensures |t| == n + 1 && t[0] == st
    ensures forall k :: 0 <= k < n ==> t[k + 1] == Step(cfg, t[k], bars, k, rs[k]).0
  {
    if n == 0 then [st]
    else
      var t := Trace(cfg, st, bars, rs, n - 1);
      t + [Step(cfg, t[n - 1], bars, n - 1, rs[n - 1]).0]
  }

  function Actions(cfg: Config, st: State, bars: seq<Bar>, rs: seq<Readings>, n: nat): (a: seq<Action>)
    requires n <= |bars| && n <= |rs| && AllSane(rs)
    ensures |a| == n
  {
    var t := Trace(cfg, st, bars, rs, n);
    seq(n, k requires 0 <= k < n => Step(cfg, t[k], bars, k, rs[k]).1.action)
  }

  /** Over a run from a fresh strategy, buys and sells alternate starting with a buy; it ends open iff the last trade was a buy. */
  lemma RunAlternates(cfg: Config, bars: seq<Bar>, rs: seq<Readings>, n: nat)
    requires n <= |bars| && n <= |rs| && AllSane(rs)
    ensures var t, tr := Trace(cfg, Initial, bars, rs, n), Trades(Actions(cfg, Initial, bars, rs, n));
            (forall j :: 0 <= j < |tr| - 1 ==> tr[j] != tr[j + 1]) &&
            (|tr| > 0 ==> tr[0] == Buy) &&
            (t[n].positionOpen <==> |tr| > 0 && tr[|tr| - 1] == Buy)
  {
    var t := Trace(cfg, Initial, bars, rs, n);
    var opens := seq(n + 1, k requires 0 <= k <= n => t[k].positionOpen);
    var actions := Actions(cfg, Initial, bars, rs, n);
    forall k | 0 <= k < n ensures Follows(opens[k], actions[k], opens[k + 1]) {
      StepFollows(cfg, t[k], bars, k, rs[k]);
    }
    TradesAlternate(opens, actions);
  }

  /**
   * `validate_parameters`: the RSI period must be at least 2, both levels
   * within [0, 100] and oversold below the target, checked in that order.
   */
  function Validate(p: Params): (v: Validation)
    ensures v == Accepted <==>
            var cfg := FromParams(p); cfg.rsiPeriod >= 2.0 && 0.0 <= cfg.rsiOversold < cfg.rsiTarget <= 100.0
    ensures FromParams(p).rsiPeriod < 2.0 ==> v == Rejected("RSI period must be at least 2")
  {
    var period, oversold, target := Get(p, "rsi_period", 5.0), Get(p, "rsi_oversold", 25.0), Get(p, "rsi_target", 50.0);
    if period < 2.0 then Rejected("RSI period must be at least 2")
    else if oversold < 0.0 || oversold > 100.0 then Rejected("RSI oversold must be between 0 and 100")
    else if target < 0.0 || target > 100.0 then Rejected("RSI target must be between 0 and 100")
    else if oversold >= target then Rejected("RSI oversold must be less than RSI target")
    else Accepted
  }
}

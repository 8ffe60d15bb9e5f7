/**
 * The opening-range breakout strategy: the highest high and lowest low of
 * the first `range_period` bars fix an opening range; a close above its
 * high (with volume confirmation) opens a long position, which closes on
 * a stop-loss, a take-profit or near the end of the data.
 */
module OpeningRangeBreakout {
  import opened Wrappers
  import opened Series
  import opened Base

  /** The parameters `_initialize` reads, with their defaults (`volume_confirmation` True is 1). */
  datatype Config = Config(
    rangePeriod: real,
    volumeConfirmation: real,
    volumeThreshold: real,
    stopLossPct: real,
    takeProfitPct: real)

  function FromParams(p: Params): (cfg: Config)
    ensures p == map[] ==> cfg == Config(30.0, 1.0, 1.5, 1.5, 3.0)
  {
    Config(Get(p, "range_period", 30.0), Get(p, "volume_confirmation", 1.0), Get(p, "volume_threshold", 1.5),
           Get(p, "stop_loss_pct", 1.5), Get(p, "take_profit_pct", 3.0))
  }

  /** The description `_initialize` sets: "Opening Range Breakout (<range_period>min range)". */
  function Description(cfg: Config): (t: Text)
    ensures t.Format? && t.args == [cfg.rangePeriod]
  {
    Format("Opening Range Breakout ({}min range)", [cfg.rangePeriod])
  }

  /**
   * What `analyze` needs of the parameters: a range period it can slice
   * the bars with, and a volume threshold it can divide by.
   */
  predicate Ready(cfg: Config)
  {
    Window(cfg.rangePeriod) && cfg.volumeThreshold != 0.0
  }

  /** The fields `_initialize` creates and `analyze` updates. */
  datatype State = State(
    rangeHigh: Option<real>,
    rangeLow: Option<real>,
    rangeSet: bool,
    positionOpen: bool,
    entryPrice: Option<real>)

  const Initial: State := State(None, None, false, false, None)

  /** A position is open exactly when an entry price is recorded. */
  predicate Consistent(st: State)
  {
    st.positionOpen <==> st.entryPrice.Some?
  }

  /** The highest high of the first n bars. */
  function RangeHigh(bars: seq<Bar>, n: nat): (h: real)
    requires 1 <= n <= |bars|
    ensures forall j :: 0 <= j < n ==> bars[j].high <= h
    ensures exists j :: 0 <= j < n && bars[j].high == h
  {
    var hs := Highs(bars[..n]);
    assert forall j :: 0 <= j < n ==> hs[j] == bars[j].high;
    Max(hs)
  }

  /** The lowest low of the first n bars. */
  function RangeLow(bars: seq<Bar>, n: nat): (l: real)
    requires 1 <= n <= |bars|
    ensures forall j :: 0 <= j < n ==> l <= bars[j].low
    ensures exists j :: 0 <= j < n && bars[j].low == l
  {
    var ls := Lows(bars[..n]);
    assert forall j :: 0 <= j < n ==> ls[j] == bars[j].low;
    Min(ls)
  }

  /** The entry confidence: 0.6 plus 0.4 times half the volume ratio over the threshold, capped at 1. */
  function EntryConfidence(cfg: Config, ratio: real): (c: real)
    requires cfg.volumeThreshold != 0.0
    ensures c <= 1.0
    ensures cfg.volumeThreshold > 0.0 && ratio >= 0.0 ==> c >= 0.6
  {
    var scaled := ratio / (cfg.volumeThreshold * 2.0);
    assert cfg.volumeThreshold > 0.0 && ratio >= 0.0 ==> scaled >= 0.0;
    MinReal(0.6 + scaled * 0.4, 1.0)
  }

  /** The exits of an open position, in the order `analyze` tries them. */
  function Exits(cfg: Config, entry: real, bars: seq<Bar>, index: nat): seq<Exit>
    requires index < |bars|
  {
    [Exit(bars[index].close <= StopLossPrice(entry, cfg.stopLossPct), StopLoss, 0.9),
     Exit(bars[index].close >= TakeProfitPrice(entry, cfg.takeProfitPct), TakeProfit, 0.9),
     Exit(index >= |bars| - 3, EndOfDay, 0.8)]
  }

  /** Whether the bar breaks out of the range with the volume confirmation `analyze` asks for. */
  predicate Breaks(cfg: Config, st: State, bars: seq<Bar>, index: nat)
    requires 1 <= index < |bars|
  {
    st.rangeHigh.Some? && bars[index].close > st.rangeHigh.value &&
    (!Truthy(cfg.volumeConfirmation) || RecentVolumeRatio(bars, index) >= cfg.volumeThreshold)
  }

  /** The range as fixed once the opening period is over: the first `range_period` bars. */
  function Finalized(cfg: Config, st: State, bars: seq<Bar>): State
    requires Ready(cfg) && Len(cfg.rangePeriod) <= |bars|
  {
    if st.rangeSet then st
    else st.(rangeSet := true,
             rangeHigh := Some(RangeHigh(bars, Len(cfg.rangePeriod))),
             rangeLow := Some(RangeLow(bars, Len(cfg.rangePeriod))))
  }

  /** An open position at bar `index`: the first exit that fires closes it, otherwise hold. */
  function ExitStep(cfg: Config, st: State, bars: seq<Bar>, index: nat): (State, Signal)
    requires index < |bars| && st.entryPrice.Some?
  {
    match FirstExit(Exits(cfg, st.entryPrice.value, bars, index))
    case Some(e) => (st.(positionOpen := false, entryPrice := None), BarSignal(bars[index], Sell, e.confidence, e.reason))
    case None => (st, HoldAt(bars[index], Monitoring))
  }

  /** After the opening period, with the range fixed: enter on a confirmed breakout when flat, else try the exits. */
  function TradeStep(cfg: Config, st: State, bars: seq<Bar>, index: nat): (State, Signal)
    requires Ready(cfg) && 1 <= index < |bars|
  {
    var bar := bars[index];
    if !st.positionOpen && Breaks(cfg, st, bars, index) then
      (st.(positionOpen := true, entryPrice := Some(bar.close)),
       BarSignal(bar, Buy, EntryConfidence(cfg, RecentVolumeRatio(bars, index)), Breakout))
    else if st.positionOpen && st.entryPrice.Some? then ExitStep(cfg, st, bars, index)
    else (st, HoldAt(bar, Monitoring))
  }

  /**
   * One call of `analyze`, as a function of the state before it: the new
   * state and the signal. Fewer than 2 bars: hold. Within the opening
   * period: track the range so far unless it is already fixed, and hold.
   * After it: fix the range once, enter on a confirmed breakout when
   * flat, otherwise take the first exit that fires when open.
   */
  function Step(cfg: Config, st: State, bars: seq<Bar>, index: nat): (State, Signal)
    requires Ready(cfg) && index < |bars|
  {
    var bar := bars[index];
    if index < 2 then (st, HoldAt(bar, InsufficientData))
    else if (index as real) < cfg.rangePeriod then
      var st' := if st.rangeSet then st
                 else st.(rangeHigh := Some(RangeHigh(bars, index + 1)), rangeLow := Some(RangeLow(bars, index + 1)));
      (st', HoldAt(bar, EstablishingRange))
    else TradeStep(cfg, Finalized(cfg, st, bars), bars, index)
  }

  class OpeningRangeBreakoutStrategy {
    const cfg: Config
    const info: StrategyInfo
    var rangeHigh: Option<real>
    var rangeLow: Option<real>
    var rangeSet: bool
    var positionOpen: bool
    var entryPrice: Option<real>

    function Snapshot(): State
      reads this
    {
      State(rangeHigh, rangeLow, rangeSet, positionOpen, entryPrice)
    }

    /** `BaseStrategy.__init__` followed by `_initialize`: no range, no position. */
    constructor (parameters: Option<Params>)
      ensures cfg == FromParams(if parameters.Some? then parameters.value else map[])
      ensures info.name == "OpeningRangeBreakoutStrategy" && info.description == Description(cfg)
      ensures Snapshot() == Initial
    {
      var base := NewStrategyInfo("OpeningRangeBreakoutStrategy",
                                  Some("Opening Range Breakout Strategy for intraday trading"), parameters);
      cfg := FromParams(base.parameters);
      info := base.(description := Description(FromParams(base.parameters)));
      rangeHigh, rangeLow, rangeSet := None, None, false;
      positionOpen, entryPrice := false, None;
    }

    /** `analyze` on bar `index` of `bars`. */
    method Analyze(bars: seq<Bar>, index: nat) returns (s: Signal)
      requires Ready(cfg) && index < |bars|
      modifies this
      ensures (Snapshot(), s) == Step(cfg, old(Snapshot()), bars, index)
    {
      var bar := bars[index];
      if index < 2 {
        return HoldAt(bar, InsufficientData);
      }
      var isOpeningPeriod := (index as real) < cfg.rangePeriod;
      var isClosingPeriod := index >= |bars| - 3;
      if isOpeningPeriod {
        if !rangeSet {
          rangeHigh := Some(RangeHigh(bars, index + 1));
          rangeLow := Some(RangeLow(bars, index + 1));
        }
        return HoldAt(bar, EstablishingRange);
      }
      if !rangeSet {
        rangeSet := true;
        rangeHigh := Some(RangeHigh(bars, Len(cfg.rangePeriod)));
        rangeLow := Some(RangeLow(bars, Len(cfg.rangePeriod)));
      }
      ghost var fixed := Snapshot();
      assert fixed == Finalized(cfg, old(Snapshot()), bars);
      assert Step(cfg, old(Snapshot()), bars, index) == TradeStep(cfg, fixed, bars, index);
      var volumeRatio := RecentVolumeRatio(bars, index);
      if !positionOpen && rangeHigh.Some? {
        if bar.close > rangeHigh.value {
          var volumeConfirmed := !Truthy(cfg.volumeConfirmation) || volumeRatio >= cfg.volumeThreshold;
          if volumeConfirmed {
            positionOpen := true;
            entryPrice := Some(bar.close);
            return BarSignal(bar, Buy, EntryConfidence(cfg, volumeRatio), Breakout);
          }
        }
      }
      if positionOpen && entryPrice.Some? {
        var exits := Exits(cfg, entryPrice.value, bars, index);
        assert TradeStep(cfg, fixed, bars, index) == ExitStep(cfg, fixed, bars, index);
        var stopLossPrice := StopLossPrice(entryPrice.value, cfg.stopLossPct);
        var takeProfitPrice := TakeProfitPrice(entryPrice.value, cfg.takeProfitPct);
        if bar.close <= stopLossPrice {
          FirstExitIs(exits, 0);
          positionOpen, entryPrice := false, None;
          return BarSignal(bar, Sell, 0.9, StopLoss);
        }
        if bar.close >= takeProfitPrice {
          FirstExitIs(exits, 1);
          positionOpen, entryPrice := false, None;
          return BarSignal(bar, Sell, 0.9, TakeProfit);
        }
        if isClosingPeriod {
          FirstExitIs(exits, 2);
          positionOpen, entryPrice := false, None;
          return BarSignal(bar, Sell, 0.8, EndOfDay);
        }
        assert FirstExit(exits) == None;
      }
      return HoldAt(bar, Monitoring);
    }
  }

  /** A step keeps "open exactly when an entry price is recorded". */
  lemma StepConsistent(cfg: Config, st: State, bars: seq<Bar>, index: nat)
    requires Ready(cfg) && index < |bars| && Consistent(st)
    ensures Consistent(Step(cfg, st, bars, index).0)
  {
  }

  /** Each step moves the position flag as its signal says: buy opens, sell closes, hold keeps. */
  lemma StepFollows(cfg: Config, st: State, bars: seq<Bar>, index: nat)
    requires Ready(cfg) && index < |bars|
    ensures Follows(st.positionOpen, Step(cfg, st, bars, index).1.action, Step(cfg, st, bars, index).0.positionOpen)
  {
  }

  /**
   * Entry: a step buys exactly when the strategy is flat, past bar 1 and
   * the opening period, and the bar breaks the fixed range high with the
   * volume confirmation; the buy records the close as the entry price,
   * with the volume-scaled confidence.
   */
  lemma BuyRecordsEntry(cfg: Config, st: State, bars: seq<Bar>, index: nat)
    requires Ready(cfg) && index < |bars|
    ensures Step(cfg, st, bars, index).1.action == Buy <==>
            !st.positionOpen && 2 <= index && (index as real) >= cfg.rangePeriod &&
            Breaks(cfg, Finalized(cfg, st, bars), bars, index)
    ensures var (st', s) := Step(cfg, st, bars, index);
            s.action == Buy ==>
              st'.positionOpen && st'.entryPrice == Some(bars[index].close) &&
              s.confidence == EntryConfidence(cfg, RecentVolumeRatio(bars, index)) &&
              s.reason == Breakout && s.price == Some(bars[index].close)
  {
  }

  /** Before bar 2 nothing changes. */
  lemma WarmUpKeepsState(cfg: Config, st: State, bars: seq<Bar>, index: nat)
    requires Ready(cfg) && index < |bars| && index < 2
    ensures Step(cfg, st, bars, index) == (st, HoldAt(bars[index], InsufficientData))
  {
  }

  /** Within the opening period the tracked range is the high/low envelope of bars 0..index, and no trade happens. */
  lemma OpeningRangeEnvelope(cfg: Config, st: State, bars: seq<Bar>, index: nat)
    requires Ready(cfg) && 2 <= index < |bars| && (index as real) < cfg.rangePeriod && !st.rangeSet
    ensures var st' := Step(cfg, st, bars, index).0;
            st'.rangeHigh.Some? && st'.rangeLow.Some? &&
            (forall j :: 0 <= j <= index ==> st'.rangeLow.value <= bars[j].low && bars[j].high <= st'.rangeHigh.value) &&
            (exists j :: 0 <= j <= index && bars[j].high == st'.rangeHigh.value) &&
            (exists j :: 0 <= j <= index && bars[j].low == st'.rangeLow.value)
    ensures Step(cfg, st, bars, index).1.action == Hold
  {
  }

  /**
   * The first step after the opening period fixes the range from the first
   * `range_period` bars; once fixed, no later step changes it.
   */
  lemma RangeFixedOnce(cfg: Config, st: State, bars: seq<Bar>, index: nat)
    requires Ready(cfg) && 2 <= index < |bars| && (index as real) >= cfg.rangePeriod
    ensures var st' := Step(cfg, st, bars, index).0;
            st'.rangeSet &&
            (st.rangeSet ==> st'.rangeHigh == st.rangeHigh && st'.rangeLow == st.rangeLow) &&
            (!st.rangeSet ==> st'.rangeHigh == Some(RangeHigh(bars, Len(cfg.rangePeriod))) &&
                              st'.rangeLow == Some(RangeLow(bars, Len(cfg.rangePeriod))))
  {
  }

  /** A set range is never recomputed, in or out of the opening period. */
  lemma SetRangeNeverChanges(cfg: Config, st: State, bars: seq<Bar>, index: nat)
    requires Ready(cfg) && index < |bars| && st.rangeSet
    ensures var st' := Step(cfg, st, bars, index).0;
            st'.rangeSet && st'.rangeHigh == st.rangeHigh && st'.rangeLow == st.rangeLow
  {
  }

  /**
   * Exit priority: an open position at a stop-loss price always closes as a
   * stop-loss; at a take-profit price (above the stop) as a take-profit;
   * otherwise in the last three bars as an end-of-day exit, and otherwise
   * it stays open.
   */
  lemma ExitOrder(cfg: Config, st: State, bars: seq<Bar>, index: nat)
    requires index < |bars| && st.entryPrice.Some?
    ensures var e, c := st.entryPrice.value, bars[index].close;
            var s := ExitStep(cfg, st, bars, index).1;
            (c <= StopLossPrice(e, cfg.stopLossPct) ==> s.action == Sell && s.reason == StopLoss && s.confidence == 0.9) &&
            (c > StopLossPrice(e, cfg.stopLossPct) && c >= TakeProfitPrice(e, cfg.takeProfitPct) ==>
               s.action == Sell && s.reason == TakeProfit && s.confidence == 0.9) &&
            (c > StopLossPrice(e, cfg.stopLossPct) && c < TakeProfitPrice(e, cfg.takeProfitPct) ==>
               (s.action == Sell <==> index >= |bars| - 3) &&
               (s.action == Sell ==> s.reason == EndOfDay && s.confidence == 0.8))
  {
    var exits := Exits(cfg, st.entryPrice.value, bars, index);
    if exits[0].fires {
      FirstExitIs(exits, 0);
    } else if exits[1].fires {
      FirstExitIs(exits, 1);
    } else if exits[2].fires {
      FirstExitIs(exits, 2);
    }
  }

  /**
   * Past the opening period, a step on an open position is the exit step on
   * the fixed range, so `ExitOrder` describes what `analyze` does there.
   */
  lemma OpenStepExits(cfg: Config, st: State, bars: seq<Bar>, index: nat)
    requires Ready(cfg) && 2 <= index < |bars| && (index as real) >= cfg.rangePeriod
    requires st.positionOpen && Consistent(st)
    ensures Step(cfg, st, bars, index) == ExitStep(cfg, Finalized(cfg, st, bars), bars, index)
  {
  }

  /** The states `analyze` passes through when called on bars 0..n-1 in order, starting from `st`. */
  function Trace(cfg: Config, st: State, bars: seq<Bar>, n: nat): (t: seq<State>)
    requires Ready(cfg) && n <= |bars|
    ensures |t| == n + 1 && t[0] == st
    ensures forall k :: 0 <= k < n ==> t[k + 1] == Step(cfg, t[k], bars, k).0
  {
    if n == 0 then [st]
    else
      var t := Trace(cfg, st, bars, n - 1);
      t + [Step(cfg, t[n - 1], bars, n - 1).0]
  }

  /** The actions of the signals along that trace. */
  function Actions(cfg: Config, st: State, bars: seq<Bar>, n: nat): (a: seq<Action>)
    requires Ready(cfg) && n <= |bars|
    ensures |a| == n
  {
    var t := Trace(cfg, st, bars, n);
    seq(n, k requires 0 <= k < n => Step(cfg, t[k], bars, k).1.action)
  }

  /**
   * Over a whole run from a fresh strategy, buys and sells alternate and
   * start with a buy, and the strategy ends holding a position exactly
   * when its last trade signal was a buy.
   */
  lemma RunAlternates(cfg: Config, bars: seq<Bar>, n: nat)
    requires Ready(cfg) && n <= |bars|
    ensures var t, tr := Trace(cfg, Initial, bars, n), Trades(Actions(cfg, Initial, bars, n));
            (forall j :: 0 <= j < |tr| - 1 ==> tr[j] != tr[j + 1]) &&
            (|tr| > 0 ==> tr[0] == Buy) &&
            (t[n].positionOpen <==> |tr| > 0 && tr[|tr| - 1] == Buy)
  {
    var t := Trace(cfg, Initial, bars, n);
    var opens := seq(n + 1, k requires 0 <= k <= n => t[k].positionOpen);
    var actions := Actions(cfg, Initial, bars, n);
    forall k | 0 <= k < n ensures Follows(opens[k], actions[k], opens[k + 1]) {
      StepFollows(cfg, t[k], bars, k);
    }
    TradesAlternate(opens, actions);
  }

  /**
   * `validate_parameters`: a positive range period, stop-loss and
   * take-profit percentage, checked in that order; the volume settings are
   * not checked.
   */
  function Validate(p: Params): (v: Validation)
    ensures v == Accepted <==>
            var cfg := FromParams(p); cfg.rangePeriod > 0.0 && cfg.stopLossPct > 0.0 && cfg.takeProfitPct > 0.0
    ensures FromParams(p).rangePeriod <= 0.0 ==> v == Rejected("Range period must be positive")
    ensures FromParams(p).rangePeriod > 0.0 && FromParams(p).stopLossPct <= 0.0 ==>
            v == Rejected("Stop loss percentage must be positive")
  {
    var rangePeriod, stopLoss, takeProfit :=
      Get(p, "range_period", 30.0), Get(p, "stop_loss_pct", 1.5), Get(p, "take_profit_pct", 3.0);
    if rangePeriod <= 0.0 then Rejected("Range period must be positive")
    else if stopLoss <= 0.0 then Rejected("Stop loss percentage must be positive")
    else if takeProfit <= 0.0 then Rejected("Take profit percentage must be positive")
    else Accepted
  }
}

/**
 * The backtest engine: it walks the bars in order, records an equity point
 * (equity and drawdown from the running peak) for every bar, buys with all
 * available capital on a buy signal while flat, sells the whole position on
 * a sell signal while long, force-sells an open position at the last close
 * and then reports the performance statistics.
 *
 * The strategy is called once per bar with the whole bar sequence and does
 * not see the engine's state, so its signals are supplied as a sequence,
 * one per bar.
 */
module Backtest {
  import opened Wrappers
  import opened Series
  import opened Base

  /** `BacktestConfig`: initial capital 10000 and commission 0 unless given. */
  datatype BacktestConfig = BacktestConfig(
    symbol: string,
    startDate: string,
    endDate: string,
    initialCapital: real,
    commission: real,
    strategyId: string,
    parameters: Params)

  function DefaultConfig(symbol: string, startDate: string, endDate: string, strategyId: string): (c: BacktestConfig)
    ensures c.initialCapital == 10000.0 && c.commission == 0.0 && c.parameters == map[]
    ensures c.symbol == symbol && c.startDate == startDate && c.endDate == endDate && c.strategyId == strategyId
  {
    BacktestConfig(symbol, startDate, endDate, 10000.0, 0.0, strategyId, map[])
  }

  /** One point of the equity curve. */
  datatype EquityPoint = EquityPoint(timestamp: Timestamp, equity: real, drawdown: real)

  /** The engine's trading state: cash, shares held, completed trades and the open trade. */
  datatype Account = Account(capital: real, position: int, trades: seq<Trade>, current: Option<Trade>)

  /**
   * The engine's invariant: never short; long exactly when an open trade is
   * recorded, and that trade holds the whole position at a positive entry
   * price.
   */
  predicate Valid(a: Account)
  {
    a.position >= 0 && (a.position > 0 <==> a.current.Some?) &&
    (a.current.Some? ==> a.current.value.quantity == a.position && a.current.value.entryPrice > 0.0)
  }

  /** Python's `int(x)` on a float: truncation toward zero. */
  function Trunc(x: real): (n: int)
    ensures x >= 0.0 ==> 0 <= n && n as real <= x < n as real + 1.0
    ensures x < 0.0 ==> n <= 0
  {
    if x >= 0.0 then x.Floor else -((-x).Floor)
  }

  /** `int(capital / price)`: the most whole shares the cash buys, ignoring commission. */
  function Shares(capital: real, price: real): (n: int)
    requires price > 0.0
    ensures capital >= 0.0 ==> 0 <= n && n as real * price <= capital < (n + 1) as real * price
    ensures capital < 0.0 ==> n <= 0
  {
    var q := capital / price;
    var n := Trunc(q);
    assert q * price == capital;
    if capital >= 0.0 then
      var next := n as real + 1.0;
      ScaleBounds(n as real, q, price);
      assert q * price < next * price;
      assert capital < next * price;
      assert next == (n + 1) as real;
      n
    else n
  }

  /** Scaling `lo <= x < lo + 1` by a positive price. */
  lemma ScaleBounds(lo: real, x: real, price: real)
    requires price > 0.0 && lo <= x < lo + 1.0
    ensures lo * price <= x * price < (lo + 1.0) * price
  {
  }

  /** The commission on a fill: a rate on the notional value. */
  function Fee(commission: real, quantity: int, price: real): real
  {
    commission * quantity as real * price
  }

  /** Whether `_execute_buy` fills: at least one share, and the cost with commission within the cash. */
  predicate BuyFills(commission: real, capital: real, price: real)
    requires price > 0.0
  {
    var n := Shares(capital, price);
    n > 0 && n as real * price + Fee(commission, n, price) <= capital
  }

  /**
   * `_execute_buy`: buy as many whole shares as the cash covers at the
   * close; if the cost with commission exceeds the cash, do nothing (the
   * order is skipped, not resized).
   */
  function AfterBuy(commission: real, a: Account, bar: Bar, reason: Reason): (b: Account)
    requires bar.close > 0.0
    ensures !BuyFills(commission, a.capital, bar.close) ==> b == a
    ensures BuyFills(commission, a.capital, bar.close) ==>
              var n := Shares(a.capital, bar.close);
              b.position == n && b.position > 0 && b.capital >= 0.0 &&
              b.capital == a.capital - n as real * bar.close * (1.0 + commission) &&
              b.trades == a.trades && b.current == Some(NewTrade(bar.timestamp, bar.close, n, Long, reason))
    ensures Valid(b) || b == a
  {
    var price := bar.close;
    var n := Shares(a.capital, price);
    if n > 0 then
      var fee := Fee(commission, n, price);
      var totalCost := n as real * price + fee;
      if totalCost <= a.capital then
        Account(a.capital - totalCost, n, a.trades, Some(NewTrade(bar.timestamp, price, n, Long, reason)))
      else a
    else a
  }

  /** The trade `_execute_sell` completes: exit at the close, with the profit figures filled in. */
  function Completed(commission: real, entry: Trade, quantity: int, bar: Bar, reason: Reason): (t: Trade)
    requires entry.entryPrice != 0.0
    ensures t.entryTime == entry.entryTime && t.entryPrice == entry.entryPrice && t.quantity == quantity
    ensures t.exitTime == Some(bar.timestamp) && t.exitPrice == Some(bar.close) && t.side == Long && t.reason == reason
    ensures t.pnl.Some? && t.pnl.value == (bar.close - entry.entryPrice) * quantity as real - 2.0 * Fee(commission, quantity, bar.close)
    ensures t.pnlPct.Some? && t.pnlPct.value * entry.entryPrice == (bar.close - entry.entryPrice) * 100.0
  {
    var price := bar.close;
    var fee := Fee(commission, quantity, price);
    var pnl := (price - entry.entryPrice) * quantity as real - 2.0 * fee;
    var ratio := (price - entry.entryPrice) / entry.entryPrice;
    assert ratio * entry.entryPrice == price - entry.entryPrice;
    assert (ratio * 100.0) * entry.entryPrice == (price - entry.entryPrice) * 100.0;
    Trade(entry.entryTime, entry.entryPrice, Some(bar.timestamp), Some(price), quantity, Long, Some(pnl), Some(ratio * 100.0), reason)
  }

  /**
   * `_execute_sell`: while long with an open trade, sell the whole position
   * at the close less commission, log the completed trade and go flat;
   * otherwise do nothing.
   */
  function AfterSell(commission: real, a: Account, bar: Bar, reason: Reason): (b: Account)
    requires a.current.Some? ==> a.current.value.entryPrice != 0.0
    ensures !(a.position > 0 && a.current.Some?) ==> b == a
    ensures a.position > 0 && a.current.Some? ==>
              b.position == 0 && b.current == None &&
              b.capital == a.capital + a.position as real * bar.close * (1.0 - commission) &&
              b.trades == a.trades + [Completed(commission, a.current.value, a.position, bar, reason)]
  {
    if a.position > 0 && a.current.Some? then
      var price := bar.close;
      var fee := Fee(commission, a.position, price);
      var proceeds := a.position as real * price - fee;
      Account(a.capital + proceeds, 0, a.trades + [Completed(commission, a.current.value, a.position, bar, reason)], None)
    else a
  }

  /** What the engine does with one bar's signal: buy only when flat, sell only when long; confidence plays no part. */
  function Apply(commission: real, a: Account, bar: Bar, s: Signal): Account
    requires bar.close > 0.0 && Valid(a)
  {
    if s.action == Buy && a.position == 0 then AfterBuy(commission, a, bar, s.reason)
    else if s.action == Sell && a.position > 0 then AfterSell(commission, a, bar, s.reason)
    else a
  }

  /** Every step keeps the engine's invariant. */
  lemma ApplyKeepsValid(commission: real, a: Account, bar: Bar, s: Signal)
    requires bar.close > 0.0 && Valid(a)
    ensures Valid(Apply(commission, a, bar, s))
  {
  }

  /**
   * A buy fills only on a buy signal while flat and a sell only on a sell
   * signal while long; the signal's confidence never changes the outcome.
   */
  lemma ApplyGates(commission: real, a: Account, bar: Bar, s: Signal, confidence: real)
    requires bar.close > 0.0 && Valid(a)
    ensures var b := Apply(commission, a, bar, s);
            (b.position > a.position ==> s.action == Buy && a.position == 0) &&
            (b.position < a.position ==> s.action == Sell && a.position > 0 && b.position == 0) &&
            (s.action == Hold ==> b == a) &&
            b == Apply(commission, a, bar, s.(confidence := confidence))
  {
  }

  /**
   * Over a buy followed by a sell, the cash changes by the logged pnl plus
   * commission·quantity·(exit − entry): the logged pnl charges the exit
   * commission twice instead of the entry and exit commissions once each.
   */
  lemma RoundTripCash(commission: real, a: Account, entryBar: Bar, exitBar: Bar, r1: Reason, r2: Reason)
    requires entryBar.close > 0.0 && a.position == 0 && BuyFills(commission, a.capital, entryBar.close)
    ensures var b := AfterBuy(commission, a, entryBar, r1);
            var c := AfterSell(commission, b, exitBar, r2);
            var n := b.position as real;
            |c.trades| == |a.trades| + 1 &&
            c.capital - a.capital ==
              c.trades[|a.trades|].pnl.value + commission * n * (exitBar.close - entryBar.close)
  {
    var b := AfterBuy(commission, a, entryBar, r1);
    var c := AfterSell(commission, b, exitBar, r2);
    var n := b.position as real;
    var e, x := entryBar.close, exitBar.close;
    assert c.trades[|a.trades|].pnl.value == (x - e) * n - 2.0 * (commission * n * x);
    CashIdentity(n, e, x, commission);
  }

  /** The algebra behind `RoundTripCash`. */
  lemma CashIdentity(n: real, e: real, x: real, c: real)
    ensures n * x * (1.0 - c) - n * e * (1.0 + c) == (x - e) * n - 2.0 * (c * n * x) + c * n * (x - e)
  {
  }

  /** Equity marked at a close: cash plus the position valued at that close. */
  function Equity(a: Account, close: real): real
  {
    a.capital + a.position as real * close
  }

  /** The running simulation: the account, the equity curve so far and the running peak equity. */
  datatype Sim = Sim(account: Account, curve: seq<EquityPoint>, peak: real)

  /** The drawdown from a peak: (peak − equity) / peak, or 0 when the peak is not positive. */
  function Drawdown(peak: real, equity: real): (d: real)
    requires equity <= peak
    ensures d >= 0.0
    ensures peak > 0.0 ==> d * peak == peak - equity
    ensures peak > 0.0 && equity >= 0.0 ==> d <= 1.0
    ensures peak <= 0.0 ==> d == 0.0
  {
    if peak > 0.0 then
      var d := (peak - equity) / peak;
      assert d * peak == peak - equity;
      d
    else 0.0
  }

  /**
   * The bookkeeping at the top of `run`'s loop: mark equity at the close,
   * raise the peak and record the equity point, before any trade.
   */
  function Mark(s: Sim, bar: Bar): (m: Sim)
    ensures m.account == s.account
  {
    var equity := Equity(s.account, bar.close);
    var peak := if equity > s.peak then equity else s.peak;
    Sim(s.account, s.curve + [EquityPoint(bar.timestamp, equity, Drawdown(peak, equity))], peak)
  }

  /** One iteration of `run`'s loop: the bookkeeping, then the trade the signal calls for. */
  function StepBar(commission: real, s: Sim, bar: Bar, signal: Signal): Sim
    requires bar.close > 0.0 && Valid(s.account)
  {
    Mark(s, bar).(account := Apply(commission, s.account, bar, signal))
  }

  /** `run`'s loop over the first n bars, bar k acted on with `signals[k]`. */
  function Simulate(commission: real, start: Sim, bars: seq<Bar>, signals: seq<Signal>, n: nat): (r: Sim)
    requires n <= |bars| && n <= |signals| && PositiveBars(bars) && Valid(start.account)
    ensures Valid(r.account)
    ensures |r.curve| == |start.curve| + n && r.curve[..|start.curve|] == start.curve
    ensures r.peak >= start.peak
  {
    if n == 0 then start
    else
      var s := Simulate(commission, start, bars, signals, n - 1);
      ApplyKeepsValid(commission, s.account, bars[n - 1], signals[n - 1]);
      var r := StepBar(commission, s, bars[n - 1], signals[n - 1]);
      assert r.curve[..|start.curve|] == s.curve[..|start.curve|];
      r
  }

  /** Simulating one more bar is one more `StepBar`. */
  lemma SimulateNext(commission: real, start: Sim, bars: seq<Bar>, signals: seq<Signal>, n: nat)
    requires n < |bars| && n < |signals| && PositiveBars(bars) && Valid(start.account)
    ensures var s := Simulate(commission, start, bars, signals, n);
            Valid(s.account) &&
            Simulate(commission, start, bars, signals, n + 1) == StepBar(commission, s, bars[n], signals[n])
  {
  }

  /**
   * The points recorded by the loop: each bar contributes exactly one, at
   * its timestamp, with a non-negative drawdown measured from a peak at
   * least the starting one; the peak never falls below any recorded equity.
   */
  lemma {:induction false} SimulateCurve(commission: real, start: Sim, bars: seq<Bar>, signals: seq<Signal>, n: nat)
    requires n <= |bars| && n <= |signals| && PositiveBars(bars) && Valid(start.account)
    ensures var r := Simulate(commission, start, bars, signals, n);
            var m := |start.curve|;
            forall k :: 0 <= k < n ==>
              r.curve[m + k].timestamp == bars[k].timestamp && r.curve[m + k].drawdown >= 0.0 &&
              r.curve[m + k].equity <= r.peak
  {
    if n > 0 {
      SimulateCurve(commission, start, bars, signals, n - 1);
      var s := Simulate(commission, start, bars, signals, n - 1);
      var r := Simulate(commission, start, bars, signals, n);
      var m := |start.curve|;
      assert r.curve == s.curve + [r.curve[m + n - 1]];
      assert forall j :: 0 <= j < m + n - 1 ==> r.curve[j] == s.curve[j];
    }
  }

  /** One step with a commission rate in [0, 1] keeps the cash non-negative. */
  lemma ApplyKeepsCash(commission: real, a: Account, bar: Bar, s: Signal)
    requires bar.close > 0.0 && Valid(a) && 0.0 <= commission <= 1.0 && a.capital >= 0.0
    ensures Apply(commission, a, bar, s).capital >= 0.0
  {
    if s.action == Sell && a.position > 0 {
      var value := a.position as real * bar.close;
      assert value >= 0.0;
      assert value * (1.0 - commission) >= 0.0;
    }
  }

  /** With a commission rate in [0, 1], the cash never goes negative. */
  lemma {:induction false} SimulateKeepsCash(commission: real, start: Sim, bars: seq<Bar>, signals: seq<Signal>, n: nat)
    requires n <= |bars| && n <= |signals| && PositiveBars(bars) && Valid(start.account)
    requires 0.0 <= commission <= 1.0 && start.account.capital >= 0.0
    ensures Simulate(commission, start, bars, signals, n).account.capital >= 0.0
  {
    if n > 0 {
      SimulateKeepsCash(commission, start, bars, signals, n - 1);
      var s := Simulate(commission, start, bars, signals, n - 1);
      ApplyKeepsCash(commission, s.account, bars[n - 1], signals[n - 1]);
      assert Simulate(commission, start, bars, signals, n).account == Apply(commission, s.account, bars[n - 1], signals[n - 1]);
    }
  }

  /** After the loop: an open position is force-sold at the last close. */
  function CloseOut(commission: real, a: Account, bars: seq<Bar>): (b: Account)
    requires |bars| > 0 && Valid(a)
    ensures b.position == 0 && b.current == None
    ensures a.position > 0 ==> |b.trades| == |a.trades| + 1 && b.trades[|a.trades|].reason == EndOfBacktest
    ensures a.position == 0 ==> b == a
  {
    if a.position > 0 then AfterSell(commission, a, bars[|bars| - 1], EndOfBacktest) else a
  }

  // ---------------------------------------------------------------- report

  /** `t.pnl and t.pnl > 0`: a truthy, positive pnl. */
  predicate Winning(t: Trade) { t.pnl.Some? && t.pnl.value != 0.0 && t.pnl.value > 0.0 }

  /** `t.pnl and t.pnl < 0`. */
  predicate Losing(t: Trade) { t.pnl.Some? && t.pnl.value != 0.0 && t.pnl.value < 0.0 }

  /** `[t.pnl for t in trades if t.pnl and t.pnl > 0]`. */
  function Wins(trades: seq<Trade>): (w: seq<real>)
    ensures |w| <= |trades|
    ensures forall i :: 0 <= i < |w| ==> w[i] > 0.0
  {
    if trades == [] then []
    else
      var t := trades[|trades| - 1];
      Wins(trades[..|trades| - 1]) + (if Winning(t) then [t.pnl.value] else [])
  }

  /** `[abs(t.pnl) for t in trades if t.pnl and t.pnl < 0]`. */
  function Losses(trades: seq<Trade>): (l: seq<real>)
    ensures |l| <= |trades|
    ensures forall i :: 0 <= i < |l| ==> l[i] > 0.0
  {
    if trades == [] then []
    else
      var t := trades[|trades| - 1];
      Losses(trades[..|trades| - 1]) + (if Losing(t) then [Abs(t.pnl.value)] else [])
  }

  /** No trade is both a win and a loss, and a trade with pnl exactly 0 is neither. */
  lemma {:induction false} WinsAndLossesDisjoint(trades: seq<Trade>)
    ensures |Wins(trades)| + |Losses(trades)| <= |trades|
    ensures (exists i :: 0 <= i < |trades| && trades[i].pnl == Some(0.0)) ==> |Wins(trades)| + |Losses(trades)| < |trades|
  {
    if trades != [] {
      var init := trades[..|trades| - 1];
      WinsAndLossesDisjoint(init);
      if exists i :: 0 <= i < |trades| - 1 && trades[i].pnl == Some(0.0) {
        var i :| 0 <= i < |trades| - 1 && trades[i].pnl == Some(0.0);
        assert init[i] == trades[i];
      }
    }
  }

  /** The sum of positive values is positive. */
  lemma {:induction false} SumPositive(s: seq<real>)
    requires forall i :: 0 <= i < |s| ==> s[i] > 0.0
    ensures Sum(s) >= 0.0
    ensures |s| > 0 ==> Sum(s) > 0.0
  {
    if |s| > 0 {
      SumPositive(s[..|s| - 1]);
    }
  }

  /** `max([ep.drawdown for ep in equity_curve])`, or 0 for an empty curve. */
  function MaxDrawdown(curve: seq<EquityPoint>): (m: real)
    ensures curve == [] ==> m == 0.0
    ensures forall i :: 0 <= i < |curve| ==> curve[i].drawdown <= m
    ensures curve != [] ==> exists i :: 0 <= i < |curve| && curve[i].drawdown == m
  {
    if curve == [] then 0.0
    else
      var ds := seq(|curve|, i requires 0 <= i < |curve| => curve[i].drawdown);
      var m := Max(ds);
      assert forall i :: 0 <= i < |curve| ==> ds[i] == curve[i].drawdown;
      assert m in ds;
      m
  }

  /** `BacktestResult`, without the Sharpe and Sortino ratios. */
  datatype BacktestResult = BacktestResult(
    strategyId: string,
    symbol: string,
    startDate: string,
    endDate: string,
    initialCapital: real,
    finalCapital: real,
    totalReturn: real,
    totalReturnPct: real,
    maxDrawdown: real,
    maxDrawdownPct: real,
    totalTrades: nat,
    winningTrades: nat,
    losingTrades: nat,
    winRate: real,
    avgWin: real,
    avgLoss: real,
    profitFactor: real,
    trades: seq<Trade>,
    equityCurve: seq<EquityPoint>)

  /** `winning / total * 100`, or 0 with no trades. */
  function WinRate(total: nat, winning: nat): (r: real)
    ensures total == 0 ==> r == 0.0
    ensures total > 0 ==> r * total as real == winning as real * 100.0
    ensures winning <= total ==> 0.0 <= r <= 100.0
  {
    if total > 0 then
      var r := winning as real / total as real * 100.0;
      assert r * total as real == winning as real * 100.0;
      r
    else 0.0
  }

  /** `np.mean(values)` of positive values, or 0 when there are none. */
  function AverageOrZero(values: seq<real>): (r: real)
    requires forall i :: 0 <= i < |values| ==> values[i] > 0.0
    ensures values == [] ==> r == 0.0
    ensures values != [] ==> r > 0.0 && r * |values| as real == Sum(values)
  {
    if values == [] then 0.0
    else
      SumPositive(values);
      Mean(values)
  }

  /**
   * `total_wins / total_losses`, where a run without losing trades divides
   * by 1 instead of 0.
   */
  function ProfitFactor(wins: seq<real>, losses: seq<real>): (r: real)
    requires forall i :: 0 <= i < |wins| ==> wins[i] > 0.0
    requires forall i :: 0 <= i < |losses| ==> losses[i] > 0.0
    ensures r >= 0.0
    ensures losses == [] ==> r == Sum(wins)
    ensures losses != [] ==> r * Sum(losses) == Sum(wins)
    ensures wins == [] ==> r == 0.0
  {
    SumPositive(wins);
    SumPositive(losses);
    var totalWins := if wins != [] then Sum(wins) else 0.0;
    var totalLosses := if losses != [] then Sum(losses) else 1.0;
    var r := totalWins / totalLosses;
    assert r * totalLosses == totalWins;
    r
  }

  /** `capital + position * equity_curve[-1].equity` (the last recorded equity, not the last close). */
  function FinalEquity(a: Account, curve: seq<EquityPoint>): (e: real)
    ensures a.position == 0 ==> e == a.capital
    ensures curve == [] ==> e == a.capital
  {
    if curve != [] then a.capital + a.position as real * curve[|curve| - 1].equity else a.capital
  }

  /** `total_return / initial_capital * 100`. */
  function ReturnPct(totalReturn: real, initialCapital: real): (p: real)
    requires initialCapital != 0.0
    ensures p * initialCapital == totalReturn * 100.0
    ensures initialCapital > 0.0 ==> (p > 0.0 <==> totalReturn > 0.0)
  {
    var p := totalReturn / initialCapital * 100.0;
    assert p * initialCapital == totalReturn * 100.0;
    p
  }

  /**
   * `_generate_report`. Dividing the return by a zero initial capital
   * raises; everything else is assembled from the helpers above.
   */
  function Report(config: BacktestConfig, a: Account, curve: seq<EquityPoint>): (r: Result<BacktestResult>)
    ensures r.Failure? <==> config.initialCapital == 0.0
    ensures r.Failure? ==> r.error == "float division by zero"
    ensures r.Success? ==>
              var v := r.value;
              v.strategyId == config.strategyId && v.symbol == config.symbol &&
              v.startDate == config.startDate && v.endDate == config.endDate &&
              v.initialCapital == config.initialCapital &&
              (a.position == 0 ==> v.finalCapital == a.capital) &&
              v.totalReturn == v.finalCapital - config.initialCapital &&
              v.totalReturnPct * config.initialCapital == v.totalReturn * 100.0 &&
              v.totalTrades == |a.trades| && v.trades == a.trades && v.equityCurve == curve &&
              v.winningTrades == |Wins(a.trades)| && v.losingTrades == |Losses(a.trades)| &&
              v.winningTrades + v.losingTrades <= v.totalTrades &&
              v.winRate == WinRate(v.totalTrades, v.winningTrades) &&
              (v.totalTrades == 0 ==> v.winRate == 0.0) && 0.0 <= v.winRate <= 100.0 &&
              v.avgWin == AverageOrZero(Wins(a.trades)) && v.avgLoss == AverageOrZero(Losses(a.trades)) &&
              v.profitFactor == ProfitFactor(Wins(a.trades), Losses(a.trades)) &&
              (v.losingTrades == 0 ==> v.profitFactor == Sum(Wins(a.trades))) &&
              v.profitFactor >= 0.0 && v.avgWin >= 0.0 && v.avgLoss >= 0.0 &&
              v.maxDrawdown == MaxDrawdown(curve) &&
              (curve == [] ==> v.maxDrawdown == 0.0) &&
              (forall i :: 0 <= i < |curve| ==> curve[i].drawdown <= v.maxDrawdown) &&
              v.maxDrawdownPct == v.maxDrawdown * 100.0
  {
    var finalEquity := FinalEquity(a, curve);
    var totalReturn := finalEquity - config.initialCapital;
    if config.initialCapital == 0.0 then Failure("float division by zero")
    else
      var wins, losses := Wins(a.trades), Losses(a.trades);
      WinsAndLossesDisjoint(a.trades);
      var maxDrawdown := MaxDrawdown(curve);
      var winRate := WinRate(|a.trades|, |wins|);
      var avgWin, avgLoss := AverageOrZero(wins), AverageOrZero(losses);
      var profitFactor := ProfitFactor(wins, losses);
      Success(BacktestResult(
        config.strategyId, config.symbol, config.startDate, config.endDate,
        config.initialCapital, finalEquity, totalReturn, ReturnPct(totalReturn, config.initialCapital),
        maxDrawdown, maxDrawdown * 100.0,
        |a.trades|, |wins|, |losses|, winRate, avgWin, avgLoss, profitFactor,
        a.trades, curve))
  }

  /**
   * A whole run from a fresh engine: one equity point per bar with a
   * non-negative drawdown, the position closed at the end, and a report
   * whose final capital is the cash.
   */
  lemma FreshRun(config: BacktestConfig, bars: seq<Bar>, signals: seq<Signal>)
    requires |bars| > 0 && |signals| == |bars| && PositiveBars(bars)
    ensures var sim := Simulate(config.commission, Sim(Account(config.initialCapital, 0, [], None), [], config.initialCapital),
                                bars, signals, |bars|);
            var a := CloseOut(config.commission, sim.account, bars);
            var r := Report(config, a, sim.curve);
            |sim.curve| == |bars| && sim.peak >= config.initialCapital &&
            (forall k :: 0 <= k < |bars| ==> sim.curve[k].timestamp == bars[k].timestamp && sim.curve[k].drawdown >= 0.0) &&
            a.position == 0 && a.current == None &&
            (r.Success? ==> r.value.finalCapital == a.capital && r.value.maxDrawdown >= 0.0)
  {
    var start := Sim(Account(config.initialCapital, 0, [], None), [], config.initialCapital);
    SimulateCurve(config.commission, start, bars, signals, |bars|);
  }

  class BacktestEngine {
    const config: BacktestConfig
    var capital: real
    var position: int
    var trades: seq<Trade>
    var equityCurve: seq<EquityPoint>
    var currentTrade: Option<Trade>

    /** The trading state as one value. */
    function Snapshot(): Account
      reads this
    {
      Account(capital, position, trades, currentTrade)
    }

    /** `__init__`: all cash, flat, no trades and an empty curve. */
    constructor (config: BacktestConfig)
      ensures this.config == config
      ensures Snapshot() == Account(config.initialCapital, 0, [], None) && equityCurve == []
    {
      this.config := config;
      capital := config.initialCapital;
      position := 0;
      trades := [];
      equityCurve := [];
      currentTrade := None;
    }

    /** `_execute_buy`. */
    method ExecuteBuy(bar: Bar, reason: Reason)
      requires bar.close > 0.0
      modifies this
      ensures Snapshot() == AfterBuy(config.commission, old(Snapshot()), bar, reason)
      ensures equityCurve == old(equityCurve)
    {
      var price := bar.close;
      var maxShares := Shares(capital, price);
      if maxShares > 0 {
        var commission := Fee(config.commission, maxShares, price);
        var totalCost := maxShares as real * price + commission;
        if totalCost <= capital {
          capital := capital - totalCost;
          position := maxShares;
          currentTrade := Some(NewTrade(bar.timestamp, price, maxShares, Long, reason));
        }
      }
    }

    /** `_execute_sell`. */
    method ExecuteSell(bar: Bar, reason: Reason)
      requires currentTrade.Some? ==> currentTrade.value.entryPrice != 0.0
      modifies this
      ensures Snapshot() == AfterSell(config.commission, old(Snapshot()), bar, reason)
      ensures equityCurve == old(equityCurve)
    {
      if position > 0 && currentTrade.Some? {
        var price := bar.close;
        var commission := Fee(config.commission, position, price);
        var proceeds := position as real * price - commission;
        capital := capital + proceeds;
        var completedTrade := Completed(config.commission, currentTrade.value, position, bar, reason);
        trades := trades + [completedTrade];
        position := 0;
        currentTrade := None;
      }
    }

    /** The trade a bar's signal calls for: a buy only when flat, a sell only when long. */
    method Act(bar: Bar, signal: Signal)
      requires bar.close > 0.0 && Valid(Snapshot())
      modifies this
      ensures Snapshot() == Apply(config.commission, old(Snapshot()), bar, signal)
      ensures equityCurve == old(equityCurve)
    {
      if signal.action == Buy && position == 0 {
        ExecuteBuy(bar, signal.reason);
      } else if signal.action == Sell && position > 0 {
        ExecuteSell(bar, signal.reason);
      }
    }

    /**
     * The loop of `run`: one equity point per bar, marked before the bar's
     * signal is acted on, then the trade (if any) the signal calls for.
     */
    method Replay(bars: seq<Bar>, signals: seq<Signal>) returns (peakEquity: real)
      requires |signals| == |bars| && PositiveBars(bars) && Valid(Snapshot())
      modifies this
      ensures Sim(Snapshot(), equityCurve, peakEquity) ==
              Simulate(config.commission, Sim(old(Snapshot()), old(equityCurve), config.initialCapital), bars, signals, |bars|)
    {
      ghost var start := Sim(Snapshot(), equityCurve, config.initialCapital);
      peakEquity := config.initialCapital;
      var i := 0;
      while i < |bars|
        invariant 0 <= i <= |bars|
        invariant Sim(Snapshot(), equityCurve, peakEquity) == Simulate(config.commission, start, bars, signals, i)
      {
        var bar := bars[i];
        var signal := signals[i];
        ghost var prev := Sim(Snapshot(), equityCurve, peakEquity);
        var currentEquity := Equity(Snapshot(), bar.close);
        if currentEquity > peakEquity {
          peakEquity := currentEquity;
        }
        var drawdown := Drawdown(peakEquity, currentEquity);
        equityCurve := equityCurve + [EquityPoint(bar.timestamp, currentEquity, drawdown)];
        assert Sim(Snapshot(), equityCurve, peakEquity) == Mark(prev, bar);
        Act(bar, signal);
        SimulateNext(config.commission, start, bars, signals, i);
        i := i + 1;
      }
    }

    /**
     * `run`: no bars raises before anything changes; otherwise the loop,
     * the closing sale and the report, with the state left as they leave it.
     */
    method Run(bars: seq<Bar>, signals: seq<Signal>) returns (r: Result<BacktestResult>)
      requires |signals| == |bars| && PositiveBars(bars) && Valid(Snapshot())
      modifies this
      ensures bars == [] ==> r == Failure("No data provided for backtest") &&
                             Snapshot() == old(Snapshot()) && equityCurve == old(equityCurve)
      ensures bars != [] ==>
                var sim := Simulate(config.commission, Sim(old(Snapshot()), old(equityCurve), config.initialCapital),
                                    bars, signals, |bars|);
                Snapshot() == CloseOut(config.commission, sim.account, bars) && equityCurve == sim.curve &&
                r == Report(config, Snapshot(), equityCurve)
    {
      if bars == [] {
        return Failure("No data provided for backtest");
      }
      var _ := Replay(bars, signals);
      if position > 0 {
        ExecuteSell(bars[|bars| - 1], EndOfBacktest);
      }
      r := Report(config, Snapshot(), equityCurve);
    }
  }
}

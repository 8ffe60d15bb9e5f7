/**
 * The records every strategy and the backtest engine exchange (signals,
 * trades, bars), the common part of a strategy object (its name,
 * description and parameters), and small helpers the strategies share.
 */
module Base {
  import opened Wrappers
  import opened Series

  /** A strategy's parameter dictionary; every value is a number (a Python bool counts as 0 or 1). */
  type Params = map<string, real>

  /** `parameters.get(key, default)`. */
  function Get(p: Params, key: string, default: real): real
  {
    if key in p then p[key] else default
  }

  /** Python truthiness of a number. */
  predicate Truthy(x: real)
  {
    x != 0.0
  }

  /** A whole number, as a window length or an `iloc` position must be. */
  predicate Whole(x: real)
  {
    x == x.Floor as real
  }

  /** A rolling-window length the model accepts: a positive whole number. */
  predicate Window(x: real)
  {
    Whole(x) && x >= 1.0
  }

  /** An `ewm` span pandas accepts: any real number of at least 1, fractional ones included. */
  predicate Span(x: real)
  {
    x >= 1.0
  }

  /** The window length a `Window` parameter denotes. */
  function Len(x: real): (n: nat)
    requires Window(x)
    ensures n as real == x && n >= 1
  {
    x.Floor
  }

  type Timestamp = int

  /** One OHLCV row of the price DataFrame. */
  datatype Bar = Bar(timestamp: Timestamp, open: real, high: real, low: real, close: real, volume: real)

  /** Prices are positive and volume is non-negative, as any market-data bar is. */
  predicate PositiveBar(b: Bar)
  {
    b.open > 0.0 && b.high > 0.0 && b.low > 0.0 && b.close > 0.0 && b.volume >= 0.0
  }

  predicate PositiveBars(bars: seq<Bar>)
  {
    forall i :: 0 <= i < |bars| ==> PositiveBar(bars[i])
  }

  /** The `close` column. */
  function Closes(bars: seq<Bar>): (r: seq<real>)
    ensures |r| == |bars|
    ensures forall i :: 0 <= i < |bars| ==> r[i] == bars[i].close
  {
    seq(|bars|, i requires 0 <= i < |bars| => bars[i].close)
  }

  /** Bars that agree up to n have closes that agree up to n. */
  lemma ClosesPrefix(a: seq<Bar>, b: seq<Bar>, n: nat)
    requires n <= |a| && n <= |b| && a[..n] == b[..n]
    ensures Closes(a)[..n] == Closes(b)[..n]
  {
    forall k | 0 <= k < n ensures Closes(a)[k] == Closes(b)[k] {
      assert a[k] == a[..n][k] && b[k] == b[..n][k];
    }
  }

  /** The `volume` column. */
  function Volumes(bars: seq<Bar>): (r: seq<real>)
    ensures |r| == |bars|
    ensures forall i :: 0 <= i < |bars| ==> r[i] == bars[i].volume
  {
    seq(|bars|, i requires 0 <= i < |bars| => bars[i].volume)
  }

  /** The `high` column. */
  function Highs(bars: seq<Bar>): (r: seq<real>)
    ensures |r| == |bars|
    ensures forall i :: 0 <= i < |bars| ==> r[i] == bars[i].high
  {
    seq(|bars|, i requires 0 <= i < |bars| => bars[i].high)
  }

  /** The `low` column. */
  function Lows(bars: seq<Bar>): (r: seq<real>)
    ensures |r| == |bars|
    ensures forall i :: 0 <= i < |bars| ==> r[i] == bars[i].low
  {
    seq(|bars|, i requires 0 <= i < |bars| => bars[i].low)
  }

  /*
   * Comparisons of values that may be NaN (None): as in IEEE arithmetic,
   * every ordered comparison with NaN is false.
   */
  predicate Lt(a: Option<real>, b: Option<real>) { a.Some? && b.Some? && a.value < b.value }
  predicate Le(a: Option<real>, b: Option<real>) { a.Some? && b.Some? && a.value <= b.value }
  predicate Gt(a: Option<real>, b: Option<real>) { a.Some? && b.Some? && a.value > b.value }
  predicate Ge(a: Option<real>, b: Option<real>) { a.Some? && b.Some? && a.value >= b.value }

  function MinReal(a: real, b: real): real { if b < a then b else a }

  /**
   * `min(num / den, 1.0)` on numpy floats, for a positive numerator: a zero
   * denominator gives +inf, which the cap turns into 1.0.
   */
  function CappedRatio(num: real, den: real): (r: real)
    requires num > 0.0
    ensures r <= 1.0
    ensures den >= 0.0 ==> 0.0 < r
    ensures den > 0.0 && num <= den ==> r == num / den
  {
    if den == 0.0 then 1.0 else MinReal(num / den, 1.0)
  }
  function Abs(x: real): real { if x < 0.0 then -x else x }

  datatype Action = Buy | Sell | Hold

  /** What a signal or trade reason string reports (the numbers formatted into it are not modelled). */
  datatype Reason =
    | InsufficientData
    | BullishCrossover | BearishCrossover | NoCrossover
    | RsiOversold | RsiOverbought | RsiNeutral
    | BullishTrend | BearishTrend | NeutralTrend
    | EstablishingRange | Breakout
    | OversoldEntry | RsiReversion | BollingerReversion
    | VwapDip | VwapReversion
    | GapUp
    | SectorLeadership | TrendReversal | RsiOverboughtExit
    | StopLoss | TakeProfit | TrailingStop | EndOfDay
    | Monitoring
    | EndOfBacktest

  /** A trading signal: `price` and `quantity` are optional and default to None. */
  datatype Signal = Signal(
    timestamp: Timestamp,
    action: Action,
    confidence: real,
    reason: Reason,
    price: Option<real>,
    quantity: Option<int>)

  /** `Signal(timestamp=..., action=..., confidence=..., reason=...)` with the optional fields left to their defaults. */
  function NewSignal(timestamp: Timestamp, action: Action, confidence: real, reason: Reason): (s: Signal)
    ensures s.timestamp == timestamp && s.action == action && s.confidence == confidence && s.reason == reason
    ensures s.price == None && s.quantity == None
  {
    Signal(timestamp, action, confidence, reason, None, None)
  }

  /** The signal every strategy builds: stamped with the bar and priced at its close. */
  function BarSignal(bar: Bar, action: Action, confidence: real, reason: Reason): Signal
  {
    NewSignal(bar.timestamp, action, confidence, reason).(price := Some(bar.close))
  }

  function HoldAt(bar: Bar, reason: Reason): Signal
  {
    BarSignal(bar, Hold, 0.0, reason)
  }

  datatype Side = Long | Short

  /** A trade; the exit fields and the profit figures stay None until the trade is closed. */
  datatype Trade = Trade(
    entryTime: Timestamp,
    entryPrice: real,
    exitTime: Option<Timestamp>,
    exitPrice: Option<real>,
    quantity: int,
    side: Side,
    pnl: Option<real>,
    pnlPct: Option<real>,
    reason: Reason)

  /** `Trade(entry_time=..., entry_price=..., quantity=..., side=..., reason=...)`: an open trade. */
  function NewTrade(entryTime: Timestamp, entryPrice: real, quantity: int, side: Side, reason: Reason): (t: Trade)
    ensures t.entryTime == entryTime && t.entryPrice == entryPrice && t.quantity == quantity
    ensures t.side == side && t.reason == reason
    ensures t.exitTime == None && t.exitPrice == None && t.pnl == None && t.pnlPct == None
  {
    Trade(entryTime, entryPrice, None, None, quantity, side, None, None, reason)
  }

  /** A text that is either literal or an f-string template with the numbers formatted into it. */
  datatype Text = Plain(s: string) | Format(template: string, args: seq<real>)

  /** The attributes `BaseStrategy.__init__` sets on every strategy. */
  datatype StrategyInfo = StrategyInfo(name: string, description: Text, parameters: Params)

  const DefaultDescription: string := "Trading strategy"

  /**
   * `BaseStrategy.__init__` before `_initialize` runs: the parameters
   * default to a fresh empty dict, the name is the class name and the
   * description is the class docstring, or a fixed text without one.
   */
  function NewStrategyInfo(className: string, doc: Option<string>, parameters: Option<Params>): (info: StrategyInfo)
    ensures info.name == className
    ensures parameters.None? ==> info.parameters == map[]
    ensures parameters.Some? ==> info.parameters == parameters.value
    ensures doc.Some? && doc.value != "" ==> info.description == Plain(doc.value)
    ensures (doc.None? || doc.value == "") ==> info.description == Plain(DefaultDescription)
  {
    var params := if parameters.Some? && |parameters.value| > 0 then parameters.value else map[];
    var description := if doc.Some? && doc.value != "" then doc.value else DefaultDescription;
    StrategyInfo(className, Plain(description), params)
  }

  datatype InfoField = NameField(name: string) | DescriptionField(text: Text) | ParametersField(params: Params)

  /** `get_info`: a dictionary with exactly the keys name, description and parameters. */
  function GetInfo(info: StrategyInfo): (d: map<string, InfoField>)
    ensures d.Keys == {"name", "description", "parameters"}
    ensures d["name"] == NameField(info.name)
    ensures d["description"] == DescriptionField(info.description)
    ensures d["parameters"] == ParametersField(info.parameters)
  {
    map["name" := NameField(info.name),
        "description" := DescriptionField(info.description),
        "parameters" := ParametersField(info.parameters)]
  }

  /** The verdict of a `validate_parameters`: True, or the message of the ValueError it raises. */
  datatype Validation = Accepted | Rejected(message: string)

  /** The default `validate_parameters` accepts every dictionary. */
  function DefaultValidate(parameters: Params): (v: Validation)
    ensures v == Accepted
  {
    Accepted
  }

  /**
   * How a signal moves a strategy's own position flag: a buy opens a flat
   * position, a sell closes an open one, a hold leaves it as it was.
   */
  predicate Follows(before: bool, a: Action, after: bool)
  {
    match a
    case Buy => !before && after
    case Sell => before && !after
    case Hold => after == before
  }

  /** The buy and sell actions of a signal sequence, in order. */
  function Trades(actions: seq<Action>): (t: seq<Action>)
    ensures forall j :: 0 <= j < |t| ==> t[j] != Hold
    ensures |t| <= |actions|
  {
    if actions == [] then []
    else Trades(actions[..|actions| - 1]) + (if actions[|actions| - 1] == Hold then [] else [actions[|actions| - 1]])
  }

  /** `opens[k]` is the position before action k and `opens[k+1]` the position after it. */
  predicate Chained(opens: seq<bool>, actions: seq<Action>)
  {
    |opens| == |actions| + 1 && forall k :: 0 <= k < |actions| ==> Follows(opens[k], actions[k], opens[k + 1])
  }

  /**
   * Along a chain of steps that each follow the position flag, buys and
   * sells strictly alternate, the first trade from a flat start is a buy,
   * and the final position is open exactly when the last trade was a buy.
   */
  lemma {:induction false} TradesAlternate(opens: seq<bool>, actions: seq<Action>)
    requires Chained(opens, actions)
    ensures var t := Trades(actions);
            (forall j :: 0 <= j < |t| - 1 ==> t[j] != t[j + 1]) &&
            (|t| > 0 ==> (t[0] == Buy <==> !opens[0])) &&
            (opens[|actions|] <==> if t == [] then opens[0] else t[|t| - 1] == Buy)
  {
    if actions != [] {
      var n := |actions| - 1;
      assert Chained(opens[..n + 1], actions[..n]);
      TradesAlternate(opens[..n + 1], actions[..n]);
      assert Follows(opens[n], actions[n], opens[n + 1]);
    }
  }

  /** The mean volume of the (up to) 20 bars before `index`. */
  function RecentAverageVolume(bars: seq<Bar>, index: nat): real
    requires 1 <= index < |bars|
  {
    var from := if index >= 20 then index - 20 else 0;
    Mean(Volumes(bars)[from .. index])
  }

  /** The bar's volume relative to that mean, or 1 when the mean is not positive. */
  function RecentVolumeRatio(bars: seq<Bar>, index: nat): (r: real)
    requires 1 <= index < |bars|
    ensures RecentAverageVolume(bars, index) > 0.0 ==> r * RecentAverageVolume(bars, index) == bars[index].volume
    ensures RecentAverageVolume(bars, index) <= 0.0 ==> r == 1.0
  {
    var avg := RecentAverageVolume(bars, index);
    if avg > 0.0 then bars[index].volume / avg else 1.0
  }

  /** The highest close so far, raised to the current close when that is higher. */
  function Raised(highest: real, close: real): (h: real)
    ensures h >= highest && h >= close && (h == highest || h == close)
  {
    if close > highest then close else highest
  }

  /** The price `pct` percent below `entry`, where a stop-loss fires. */
  function StopLossPrice(entry: real, pct: real): real
  {
    entry * (1.0 - pct / 100.0)
  }

  /** The price `pct` percent above `entry`, where a take-profit fires. */
  function TakeProfitPrice(entry: real, pct: real): real
  {
    entry * (1.0 + pct / 100.0)
  }

  /** One exit test of an open position: whether it fires, and the signal it produces. */
  datatype Exit = Exit(fires: bool, reason: Reason, confidence: real)

  /** The first exit, in priority order, that fires. */
  function FirstExit(exits: seq<Exit>): (r: Option<Exit>)
    ensures r.None? <==> forall k :: 0 <= k < |exits| ==> !exits[k].fires
    ensures r.Some? ==> exists k :: 0 <= k < |exits| && exits[k] == r.value && r.value.fires &&
                                    forall j :: 0 <= j < k ==> !exits[j].fires
  {
    if exits == [] then None
    else if exits[0].fires then Some(exits[0])
    else
      var r := FirstExit(exits[1..]);
      assert forall k :: 1 <= k < |exits| ==> exits[1..][k - 1] == exits[k];
      r
  }

  /** The exit at position k is the one taken when it fires and none before it does. */
  lemma FirstExitIs(exits: seq<Exit>, k: nat)
    requires k < |exits| && exits[k].fires && forall j :: 0 <= j < k ==> !exits[j].fires
    ensures FirstExit(exits) == Some(exits[k])
  {
    var r := FirstExit(exits);
    var k' :| 0 <= k' < |exits| && exits[k'] == r.value && r.value.fires && forall j :: 0 <= j < k' ==> !exits[j].fires;
    assert k' == k;
  }
}

/**
 * The strategy registry: the three registered strategies under their ids,
 * in registration order, the lookup that constructs one, and the listing
 * of all of them with their default settings.
 */
module Registry {
  import opened Wrappers
  import opened Base
  import SmaCrossover
  import RsiMeanRevert
  import MacdTrendFollow

  /** The registered strategy classes. */
  datatype Kind = SmaKind | RsiKind | MacdKind

  /** `STRATEGIES`, as the ordered list of its (id, class) entries. */
  const Strategies: seq<(string, Kind)> :=
    [("sma_crossover", SmaKind), ("rsi_mean_revert", RsiKind), ("macd_trend_follow", MacdKind)]

  /** `STRATEGIES.get(id)`: the class registered under `id`, if any. */
  function Lookup(entries: seq<(string, Kind)>, id: string): (k: Option<Kind>)
    ensures k.None? <==> forall i :: 0 <= i < |entries| ==> entries[i].0 != id
    ensures k.Some? ==> exists i :: 0 <= i < |entries| && entries[i] == (id, k.value)
  {
    if entries == [] then None
    else if entries[0].0 == id then Some(entries[0].1)
    else
      var k := Lookup(entries[1..], id);
      assert forall i :: 1 <= i < |entries| ==> entries[1..][i - 1] == entries[i];
      k
  }

  /** A constructed strategy: the attributes `BaseStrategy.__init__` sets and the settings `_initialize` reads. */
  datatype Instance =
    | SmaInstance(info: StrategyInfo, sma: SmaCrossover.Config)
    | RsiInstance(info: StrategyInfo, rsi: RsiMeanRevert.Config)
    | MacdInstance(info: StrategyInfo, macd: MacdTrendFollow.Config)

  function ClassName(kind: Kind): string
  {
    match kind
    case SmaKind => "SMACrossoverStrategy"
    case RsiKind => "RSIMeanReversionStrategy"
    case MacdKind => "MACDTrendFollowStrategy"
  }

  function Docstring(kind: Kind): string
  {
    match kind
    case SmaKind => "Simple Moving Average Crossover Strategy"
    case RsiKind => "RSI Mean Reversion Strategy"
    case MacdKind => "MACD Trend Following Strategy"
  }

  /**
   * Calling the class: `BaseStrategy.__init__` (name, docstring description,
   * `parameters or {}`), then `_initialize`, which reads the settings and
   * overwrites the description with its formatted one.
   */
  function Construct(kind: Kind, parameters: Option<Params>): (inst: Instance)
    ensures inst.info.name == ClassName(kind)
    ensures inst.info.parameters == (if parameters.Some? then parameters.value else map[])
    ensures kind == SmaKind <==> inst.SmaInstance?
    ensures kind == RsiKind <==> inst.RsiInstance?
    ensures kind == MacdKind <==> inst.MacdInstance?
    ensures inst.SmaInstance? ==>
              inst.sma == SmaCrossover.FromParams(inst.info.parameters) && inst.info.description == SmaCrossover.Description(inst.sma)
    ensures inst.RsiInstance? ==>
              inst.rsi == RsiMeanRevert.FromParams(inst.info.parameters) && inst.info.description == RsiMeanRevert.Description(inst.rsi)
    ensures inst.MacdInstance? ==>
              inst.macd == MacdTrendFollow.FromParams(inst.info.parameters) && inst.info.description == MacdTrendFollow.Description(inst.macd)
  {
    var base := NewStrategyInfo(ClassName(kind), Some(Docstring(kind)), parameters);
    match kind
    case SmaKind =>
      var cfg := SmaCrossover.FromParams(base.parameters);
      SmaInstance(base.(description := SmaCrossover.Description(cfg)), cfg)
    case RsiKind =>
      var cfg := RsiMeanRevert.FromParams(base.parameters);
      RsiInstance(base.(description := RsiMeanRevert.Description(cfg)), cfg)
    case MacdKind =>
      var cfg := MacdTrendFollow.FromParams(base.parameters);
      MacdInstance(base.(description := MacdTrendFollow.Description(cfg)), cfg)
  }

  function NotFound(id: string): string
  {
    "Strategy '" + id + "' not found"
  }

  /**
   * `get_strategy`: an unknown id raises ValueError; a known one gives a
   * fresh instance of its class built with `parameters or {}`. The
   * parameters are not validated.
   */
  function GetStrategy(id: string, parameters: Option<Params>): (r: Result<Instance>)
    ensures r.Failure? <==> id !in {"sma_crossover", "rsi_mean_revert", "macd_trend_follow"}
    ensures r.Failure? ==> r.error == NotFound(id)
    ensures r.Success? ==> r.value.info.parameters == (if parameters.Some? then parameters.value else map[])
    ensures id == "sma_crossover" && r.Success? ==> r.value.SmaInstance? && r.value.info.name == "SMACrossoverStrategy"
    ensures id == "rsi_mean_revert" && r.Success? ==> r.value.RsiInstance? && r.value.info.name == "RSIMeanReversionStrategy"
    ensures id == "macd_trend_follow" && r.Success? ==> r.value.MacdInstance? && r.value.info.name == "MACDTrendFollowStrategy"
  {
    match Lookup(Strategies, id)
    case None => Failure(NotFound(id))
    case Some(kind) =>
      var given := if parameters.Some? && |parameters.value| > 0 then parameters.value else map[];
      Success(Construct(kind, Some(given)))
  }

  /**
   * `get_strategy` never validates: a short SMA period above the long one
   * is rejected by the strategy's own validator, yet the lookup builds the
   * strategy with it.
   */
  lemma GetStrategyDoesNotValidate()
    ensures var p := map["short_period" := 50.0];
            SmaCrossover.Validate(p).Rejected? && GetStrategy("sma_crossover", Some(p)).Success? &&
            GetStrategy("sma_crossover", Some(p)).value.sma.shortPeriod == 50.0
  {
    var p := map["short_period" := 50.0];
    assert SmaCrossover.FromParams(p) == SmaCrossover.Config(50.0, 30.0);
  }

  /** One entry of `list_strategies`. */
  datatype Listing = Listing(id: string, name: string, description: Text, parameters: Params)

  /** The listing of the strategy registered under `id`, built with no parameters. */
  function ListingOf(id: string, kind: Kind): Listing
  {
    var inst := Construct(kind, None);
    Listing(id, inst.info.name, inst.info.description, inst.info.parameters)
  }

  /**
   * `list_strategies`: one entry per registered id, in registry order, each
   * from an instance built with default parameters.
   */
  method ListStrategies() returns (listings: seq<Listing>)
    ensures |listings| == |Strategies|
    ensures forall i :: 0 <= i < |listings| ==> listings[i] == ListingOf(Strategies[i].0, Strategies[i].1)
    ensures forall i :: 0 <= i < |listings| ==> listings[i].id == Strategies[i].0 && listings[i].parameters == map[]
  {
    listings := [];
    var i := 0;
    while i < |Strategies|
      invariant 0 <= i <= |Strategies|
      invariant |listings| == i
      invariant forall j :: 0 <= j < i ==> listings[j] == ListingOf(Strategies[j].0, Strategies[j].1)
    {
      var (id, kind) := Strategies[i];
      var instance := Construct(kind, None);
      listings := listings + [Listing(id, instance.info.name, instance.info.description, instance.info.parameters)];
      i := i + 1;
    }
  }

  /** The listed ids are exactly the ids `get_strategy` accepts. */
  lemma ListedIdsAreTheKnownOnes(id: string)
    ensures GetStrategy(id, None).Success? <==> exists i :: 0 <= i < |Strategies| && Strategies[i].0 == id
  {
  }
}

/** The rebalance simulator: a fixed table of what-if scenarios, each a set
    of percentage-point shifts per asset symbol, applied to the current
    allocations and clamped to [5, 80]. */
module Simulator {
  import opened Common
  import Store

  const MinSimulated: real := 5.0
  const MaxSimulated: real := 80.0

  datatype Scenario = GoldPump | RealEstateCrash | ForexSurge

  datatype ScenarioInfo = ScenarioInfo(title: string, description: string, changes: Record<real>)

  datatype SimulatedAllocation = SimulatedAllocation(symbol: string, current: real, simulated: real, change: real)

  function ScenarioTable(s: Scenario): ScenarioInfo {
    match s
    case GoldPump =>
      ScenarioInfo("Gold Pumps +5%", "If gold price increases 5%, auto-shift to capture gains",
                   [Entry("REI", -10.0), Entry("XAU", 20.0), Entry("USD/TRY", -10.0)])
    case RealEstateCrash =>
      ScenarioInfo("Real Estate -10%", "If RE index drops, reduce exposure and diversify",
                   [Entry("REI", -25.0), Entry("XAU", 15.0), Entry("USD/TRY", 10.0)])
    case ForexSurge =>
      ScenarioInfo("Forex Carry +15%", "High carry trade yields attract reallocation",
                   [Entry("REI", -5.0), Entry("XAU", -10.0), Entry("USD/TRY", 15.0)])
  }

  /** `changes[symbol] || 0`. */
  function Delta(changes: Record<real>, symbol: string): real {
    match Lookup(changes, symbol)
    case None => 0.0
    case Some(v) => v
  }

  function SimulateAsset(a: Store.OracleAsset, changes: Record<real>): SimulatedAllocation {
    var newAllocation := Max(MinSimulated, Min(MaxSimulated, a.allocation + Delta(changes, a.symbol)));
    SimulatedAllocation(a.symbol, a.allocation, newAllocation, newAllocation - a.allocation)
  }

  function Simulate(data: seq<Store.OracleAsset>, s: Scenario): seq<SimulatedAllocation> {
    var changes := ScenarioTable(s).changes;
    seq(|data|, i requires 0 <= i < |data| => SimulateAsset(data[i], changes))
  }

  /** One entry per asset in the assets' order; each keeps the asset's current
      allocation, lies in [5, 80], reports its change from the current value,
      and is the shifted allocation whenever that is already within bounds. */
  lemma SimulateSpec(data: seq<Store.OracleAsset>, s: Scenario)
    ensures var r := Simulate(data, s);
      && |r| == |data|
      && forall i :: 0 <= i < |data| ==>
           var shifted := data[i].allocation + Delta(ScenarioTable(s).changes, data[i].symbol);
           && r[i].symbol == data[i].symbol
           && r[i].current == data[i].allocation
           && MinSimulated <= r[i].simulated <= MaxSimulated
           && r[i].change == r[i].simulated - r[i].current
           && (MinSimulated <= shifted <= MaxSimulated ==> r[i].simulated == shifted)
           && (shifted < MinSimulated ==> r[i].simulated == MinSimulated)
           && (shifted > MaxSimulated ==> r[i].simulated == MaxSimulated)
  {
  }

  /** A symbol the scenario does not mention is shifted by 0, so it is only
      clamped. */
  lemma MissingSymbol(a: Store.OracleAsset, s: Scenario)
    requires forall j :: 0 <= j < |ScenarioTable(s).changes| ==> ScenarioTable(s).changes[j].key != a.symbol
    ensures SimulateAsset(a, ScenarioTable(s).changes).simulated == Max(MinSimulated, Min(MaxSimulated, a.allocation))
  {
    assert Lookup(ScenarioTable(s).changes, a.symbol).None?;
  }

  /** On the initial assets (45/30/25) the gold-pump scenario gives 35/50/15. */
  lemma GoldPumpExample(now: int)
    ensures var r := Simulate(Store.InitialOracleData(now), GoldPump);
      && |r| == 3
      && r[0] == SimulatedAllocation("REI", 45.0, 35.0, -10.0)
      && r[1] == SimulatedAllocation("XAU", 30.0, 50.0, 20.0)
      && r[2] == SimulatedAllocation("USD/TRY", 25.0, 15.0, -10.0)
  {
    var changes := ScenarioTable(GoldPump).changes;
    var d := Store.InitialOracleData(now);
    assert Delta(changes, "REI") == -10.0;
    assert "XAU" != "REI";
    assert Delta(changes, "XAU") == 20.0;
    assert "USD/TRY" != "REI" && "USD/TRY" != "XAU";
    assert Delta(changes, "USD/TRY") == -10.0;
    assert SimulateAsset(d[0], changes) == SimulatedAllocation("REI", 45.0, 35.0, -10.0);
    assert SimulateAsset(d[1], changes) == SimulatedAllocation("XAU", 30.0, 50.0, 20.0);
    assert SimulateAsset(d[2], changes) == SimulatedAllocation("USD/TRY", 25.0, 15.0, -10.0);
  }
}

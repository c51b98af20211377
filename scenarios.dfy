/**
 * The facility driven the way the simulation kernel and the unit tests drive
 * it: entry, then one tick and one bid computation per timestep, and trade
 * deliveries. The supply value each bid computation returns is the value the
 * facility records in its "supply" time series.
 */
module Scenarios {
  import opened Wrappers
  import opened Resources
  import opened Schedule
  import opened Exchange
  import opened Flexmore

  /**
   * Configures a facility with a throughput list and unbounded lifetime,
   * enters it at time 0 of a simulation of the given duration, and on every
   * timestep ticks it and asks it for bids on one request for its commodity,
   * collecting the supply value each bid computation records.
   */
  method SupplyBounds(schedule: seq<real>, duration: nat, request: Request, genericRecipe: Composition)
    returns (bounds: seq<real>, err: Option<ScheduleError>)
    ensures err == Validate(Expand(schedule, duration), duration)
    ensures err.None? ==> |bounds| == duration
    ensures err.None? ==> forall t :: 0 <= t < duration ==>
              bounds[t] == Min(Expand(schedule, duration)[t], DocumentedDefault)
  {
    var src := new Source.FromConfig(Config("commod", Some("genericRecipe"), None, Some(schedule), None, None));
    var recipes := map["genericRecipe" := genericRecipe];
    err := src.EnterNotify(-1, duration, 0);
    bounds := [];
    if err.Some? {
      return;
    }
    ValidateSucceedsIff(src.throughput, duration);
    var t := 0;
    while t < duration
      invariant 0 <= t <= duration
      invariant src.throughput == Expand(schedule, duration) && |src.throughput| == duration
      invariant src.inventorySize == DocumentedDefault && src.enterTime == 0
      invariant |bounds| == t
      invariant forall k :: 0 <= k < t ==> bounds[k] == Min(Expand(schedule, duration)[k], DocumentedDefault)
    {
      src.Tick(t);
      var ports, supply := src.GetMatlBids(map["commod" := [request]], recipes);
      bounds := bounds + [supply];
      t := t + 1;
    }
  }

  /** A three-step schedule [1, 2, 3] records the supply values 1, 2 and 3. */
  method MultiThroughputScenario(request: Request, genericRecipe: Composition) returns (bounds: seq<real>)
    ensures bounds == [1.0, 2.0, 3.0]
  {
    var err;
    ValidateSucceedsIff([1.0, 2.0, 3.0], 3);
    bounds, err := SupplyBounds([1.0, 2.0, 3.0], 3, request, genericRecipe);
  }

  /** A single throughput value 1 is used on every one of the three steps. */
  method SingleThroughputScenario(request: Request, genericRecipe: Composition) returns (bounds: seq<real>)
    ensures bounds == [1.0, 1.0, 1.0]
  {
    var err;
    SingleInRangeEntryValidates(1.0, 3);
    bounds, err := SupplyBounds([1.0], 3, request, genericRecipe);
  }

  /**
   * A default-constructed facility with output recipe "recipe" and throughput
   * [5] answers no trades with no response, one trade of 5/3 with one response
   * of 5/3 of the recipe's composition, and two such trades with two
   * responses.
   */
  method ResponseScenario(request: Request, bid: Bid, recipe: Composition)
    returns (none: seq<Response>, one: seq<Response>, two: seq<Response>)
    ensures none == []
    ensures |one| == 1 && one[0].material.quantity == 5.0 / 3.0 && one[0].material.comp == recipe
    ensures |two| == 2
    ensures forall i :: 0 <= i < 2 ==> two[i].material.quantity == 5.0 / 3.0 && two[i].material.comp == recipe
  {
    var src := new Source();
    src.outcommod := "commod";
    src.outrecipe := "recipe";
    src.throughput := [5.0];
    var recipes := map["recipe" := recipe];
    var qty := 5.0 / 3.0;
    var trades: seq<Trade> := [];
    var err;

    none, err := src.GetMatlTrades(trades, [], recipes);

    trades := trades + [Trade(request, bid, qty)];
    one, err := src.GetMatlTrades(trades, none, recipes);
    ResponsesForShape(trades, "recipe", recipes);
    assert trades[..0] == [];

    trades := trades + [Trade(request, bid, qty)];
    two, err := src.GetMatlTrades(trades, [], recipes);
    ResponsesForShape(trades, "recipe", recipes);
    assert trades[..1] == [trades[0]];
  }
}

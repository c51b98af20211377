/**
 * The supply facility itself: a class whose fields are the facility's
 * per-instance state, with the callbacks the simulation kernel invokes
 * (entry, tick, bid request, trade delivery) as methods that update them.
 */
module Flexmore {
  import opened Wrappers
  import opened Resources
  import opened Schedule
  import opened Exchange

  /** The documented default for inventory and throughput (1e299 kg). */
  const DocumentedDefault: real := 100000000000000000000000000000000000000000000000000000000000000000000000000000000000000000000000000000000000000000000000000000000000000000000000000000000000000000000000000000000000000000000000000000000000000000000000000000000000000000000000000000000000000000000000000000000000000000000000000000000000.0

  /**
   * The facility's parameters as read from the input file; an absent
   * optional parameter takes its documented default.
   */
  datatype Config = Config(
    outcommod: string,
    outrecipe: Option<string>,
    inventorySize: Option<real>,
    throughput: Option<seq<real>>,
    latitude: Option<real>,
    longitude: Option<real>)

  class Source {
    /** The commodity the facility offers material on. */
    var outcommod: string
    /** The recipe of what it supplies; empty means "whatever is requested". */
    var outrecipe: string
    /** The material it has left; every trade decreases it. */
    var inventorySize: real
    /** The most it can supply at each timestep since it entered. */
    var throughput: seq<real>
    /** The throughput of the current timestep, set on each tick. */
    var currentThroughput: real
    var latitude: real
    var longitude: real
    /** The timestep at which the facility entered the simulation. */
    var enterTime: int
    /**
     * Whether currentThroughput has been set by a tick. The field has no
     * initial value, so reading it before the first tick is undefined.
     */
    ghost var throughputResolved: bool

    /** A freshly constructed facility: unlimited throughput and inventory, at position (0, 0). */
    constructor ()
      ensures throughput == [DoubleMax] && inventorySize == DoubleMax
      ensures latitude == 0.0 && longitude == 0.0
      ensures outcommod == "" && outrecipe == ""
      ensures !throughputResolved
    {
      outcommod, outrecipe := "", "";
      throughput := [DoubleMax];
      inventorySize := DoubleMax;
      latitude, longitude := 0.0, 0.0;
      enterTime := 0;
      currentThroughput := 0.0;
      throughputResolved := false;
    }

    /** A facility initialised from its input parameters, with the documented defaults for absent ones. */
    constructor FromConfig(config: Config)
      ensures outcommod == config.outcommod
      ensures outrecipe == (if config.outrecipe.Some? then config.outrecipe.value else "")
      ensures inventorySize == (if config.inventorySize.Some? then config.inventorySize.value else DocumentedDefault)
      ensures throughput == (if config.throughput.Some? then config.throughput.value else [DocumentedDefault])
      ensures latitude == (if config.latitude.Some? then config.latitude.value else 0.0)
      ensures longitude == (if config.longitude.Some? then config.longitude.value else 0.0)
      ensures !throughputResolved
    {
      outcommod := config.outcommod;
      outrecipe := if config.outrecipe.Some? then config.outrecipe.value else "";
      inventorySize := if config.inventorySize.Some? then config.inventorySize.value else DocumentedDefault;
      throughput := if config.throughput.Some? then config.throughput.value else [DocumentedDefault];
      latitude := if config.latitude.Some? then config.latitude.value else 0.0;
      longitude := if config.longitude.Some? then config.longitude.value else 0.0;
      enterTime := 0;
      currentThroughput := 0.0;
      throughputResolved := false;
    }

    /**
     * Entry into the simulation: a one-entry throughput list is expanded to the
     * active lifetime, then the list is checked and every violation is
     * collected into one error. The expansion stays in place even when the
     * error is raised. The entry time is kept for the ticks that follow.
     */
    method EnterNotify(lifetime: int, duration: int, entered: int) returns (err: Option<ScheduleError>)
      requires ActiveLifetime(lifetime, duration, entered) >= 0
      modifies this`throughput, this`enterTime
      ensures enterTime == entered
      ensures throughput == Expand(old(throughput), ActiveLifetime(lifetime, duration, entered))
      ensures err == Validate(throughput, ActiveLifetime(lifetime, duration, entered))
    {
      enterTime := entered;
      var ltime := ActiveLifetime(lifetime, duration, entered);
      if |throughput| == 1 {
        var only := throughput[0];
        throughput := seq(ltime, _ => only);
      }

      var length: Option<LengthMismatch> := None;
      if |throughput| != ltime {
        length := Some(LengthMismatch(|throughput|, ltime));
      }
      var invalid: seq<Violation> := [];
      var i := 0;
      while i < |throughput|
        invariant 0 <= i <= |throughput|
        invariant invalid == BadEntries(throughput[..i])
      {
        if throughput[i] < 0.0 || throughput[i] > DoubleMax {
          invalid := invalid + [Violation(i, throughput[i])];
        }
        assert throughput[..i + 1][..i] == throughput[..i];
        i := i + 1;
      }
      assert throughput[..i] == throughput;

      if length.None? && invalid == [] {
        err := None;
      } else {
        err := Some(ScheduleError(length, invalid));
      }
    }

    /** Selects the throughput of the timestep: the entry for the number of steps since entry. */
    method SetThroughput(time: int)
      requires 0 <= time - enterTime < |throughput|
      modifies this`currentThroughput, this`throughputResolved
      ensures currentThroughput == throughput[time - enterTime]
      ensures throughputResolved
    {
      var t := time - enterTime;
      currentThroughput := throughput[t];
      throughputResolved := true;
    }

    /** The start of a timestep: only the current throughput changes. */
    method Tick(time: int)
      requires 0 <= time - enterTime < |throughput|
      modifies this`currentThroughput, this`throughputResolved
      ensures currentThroughput == throughput[time - enterTime]
      ensures throughputResolved
    {
      SetThroughput(time);
    }

    /**
     * The bids for one exchange round: nothing when the bound is below Eps or
     * nobody requests the output commodity, otherwise one portfolio with a bid
     * per request and one capacity constraint equal to the bound. The bound is
     * also returned as supply, the value recorded in the facility's supply time
     * series before the emptiness tests.
     */
    method GetMatlBids(commodRequests: map<string, seq<Request>>, recipes: RecipeBook)
      returns (ports: Result<set<BidPortfolio>, ExchangeError>, supply: real)
      requires throughputResolved
      ensures supply <= currentThroughput && supply <= inventorySize
      ensures supply == currentThroughput || supply == inventorySize
      ensures ports == MatlBids(currentThroughput, inventorySize, outcommod, outrecipe, commodRequests, recipes)
      ensures ports.Success? ==> forall port, b :: (port in ports.value && b in port.bids) ==>
                b.offer.quantity <= currentThroughput && b.offer.quantity <= inventorySize
    {
      var maxQty := Min(currentThroughput, inventorySize);
      supply := maxQty;
      if maxQty < Eps {
        return Success({}), supply;
      } else if outcommod !in commodRequests {
        return Success({}), supply;
      }

      var requests := commodRequests[outcommod];
      var bids: seq<Bid> := [];
      var i := 0;
      while i < |requests|
        invariant 0 <= i <= |requests|
        invariant i == 0 ==> bids == []
        invariant i > 0 ==> outrecipe in recipes && bids == BidsFor(requests[..i], maxQty, recipes[outrecipe])
      {
        var req := requests[i];
        var qty := Min(req.target.quantity, maxQty);
        var recipe := GetRecipe(recipes, outrecipe);
        if recipe.Failure? {
          return Failure(recipe.error), supply;
        }
        var m := Material(qty, recipe.value);
        if outrecipe != "" {
          m := Material(qty, recipe.value);
        }
        bids := bids + [Bid(req, m)];
        assert requests[..i + 1][..i] == requests[..i];
        i := i + 1;
      }
      assert requests[..i] == requests;

      ports := Success({BidPortfolio(bids, [maxQty])});
      if outrecipe in recipes {
        BidsForBounded(requests, maxQty, recipes[outrecipe]);
      }
    }

    /**
     * Fulfils the cleared trades in order: each debits the inventory by its
     * amount and appends a response of that amount, of the output recipe's
     * composition or, with no output recipe, of the requested composition.
     * A missing output recipe raises a key error at the first trade, after its
     * debit.
     */
    method GetMatlTrades(trades: seq<Trade>, responses: seq<Response>, recipes: RecipeBook)
      returns (responsesOut: seq<Response>, err: Option<ExchangeError>)
      modifies this`inventorySize
      ensures |trades| == 0 ==> err == None && inventorySize == old(inventorySize) && responsesOut == responses
      ensures RecipeResolvable(outrecipe, recipes) ==>
        && err == None
        && inventorySize == old(inventorySize) - TotalAmount(trades)
        && responsesOut == responses + ResponsesFor(trades, outrecipe, recipes)
      ensures !RecipeResolvable(outrecipe, recipes) && |trades| > 0 ==>
        && err == Some(RecipeNotFound(outrecipe))
        && inventorySize == old(inventorySize) - trades[0].amt
        && responsesOut == responses
    {
      responsesOut := responses;
      var i := 0;
      while i < |trades|
        invariant 0 <= i <= |trades|
        invariant inventorySize == old(inventorySize) - TotalAmount(trades[..i])
        invariant i > 0 ==> RecipeResolvable(outrecipe, recipes)
        invariant i == 0 ==> responsesOut == responses
        invariant RecipeResolvable(outrecipe, recipes) ==>
                    responsesOut == responses + ResponsesFor(trades[..i], outrecipe, recipes)
      {
        var qty := trades[i].amt;
        inventorySize := inventorySize - qty;
        var comp: Composition;
        if outrecipe != "" {
          var recipe := GetRecipe(recipes, outrecipe);
          if recipe.Failure? {
            return responsesOut, Some(recipe.error);
          }
          comp := recipe.value;
        } else {
          comp := trades[i].request.target.comp;
        }
        responsesOut := responsesOut + [Response(trades[i], Material(qty, comp))];
        assert trades[..i + 1][..i] == trades[..i];
        i := i + 1;
      }
      assert trades[..i] == trades;
      err := None;
    }
  }
}

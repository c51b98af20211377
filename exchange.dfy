/**
 * The facility's side of one exchange round, as functions of its state:
 * the bid portfolio it offers for the requests on its output commodity,
 * and the responses and inventory debit for the trades it is given.
 */
module Exchange {
  import opened Wrappers
  import opened Resources

  /** The framework's tolerance below which a quantity counts as zero (1e-6). */
  const Eps: real := 0.000001

  /**
   * The smaller of two quantities. Applied to the current throughput and the
   * inventory left, it is the most the facility offers in a step.
   */
  function Min(a: real, b: real): (r: real)
    ensures r <= a && r <= b && (r == a || r == b)
  {
    if a < b then a else b
  }

  /** One bid per request, in request order, each capped at maxQty, all of composition comp. */
  function BidsFor(requests: seq<Request>, maxQty: real, comp: Composition): seq<Bid>
  {
    if |requests| == 0 then []
    else
      var n := |requests| - 1;
      BidsFor(requests[..n], maxQty, comp) + [Bid(requests[n], Material(Min(requests[n].target.quantity, maxQty), comp))]
  }

  /**
   * The bids of one round. Nothing is offered when the bound is below Eps or
   * nobody asked for the output commodity; otherwise exactly one portfolio,
   * with the bids above and one capacity constraint equal to the bound. Every
   * bid's material is built from the output recipe, so a missing recipe raises
   * a key error as soon as there is a request to bid on.
   */
  function MatlBids(currentThroughput: real, inventorySize: real, outcommod: string, outrecipe: string,
                    commodRequests: map<string, seq<Request>>, recipes: RecipeBook)
    : Result<set<BidPortfolio>, ExchangeError>
  {
    var maxQty := Min(currentThroughput, inventorySize);
    if maxQty < Eps || outcommod !in commodRequests then Success({})
    else if |commodRequests[outcommod]| > 0 && outrecipe !in recipes then Failure(RecipeNotFound(outrecipe))
    else
      var comp := if outrecipe in recipes then recipes[outrecipe] else Composition(map[]);
      Success({BidPortfolio(BidsFor(commodRequests[outcommod], maxQty, comp), [maxQty])})
  }

  /** The sum of the cleared quantities of a list of trades. */
  function TotalAmount(trades: seq<Trade>): real
  {
    if |trades| == 0 then 0.0 else TotalAmount(trades[..|trades| - 1]) + trades[|trades| - 1].amt
  }

  /** Responses can be built: either no output recipe is set, or it names a known recipe. */
  predicate RecipeResolvable(outrecipe: string, recipes: RecipeBook)
  {
    outrecipe == "" || outrecipe in recipes
  }

  /** The recipe policy for responses: a configured output recipe wins; otherwise mirror the request. */
  function ResponseComposition(outrecipe: string, recipes: RecipeBook, trade: Trade): Composition
    requires RecipeResolvable(outrecipe, recipes)
  {
    if outrecipe != "" then recipes[outrecipe] else trade.request.target.comp
  }

  /** One response per trade, in trade order, of exactly the traded quantity. */
  function ResponsesFor(trades: seq<Trade>, outrecipe: string, recipes: RecipeBook): seq<Response>
    requires RecipeResolvable(outrecipe, recipes)
  {
    if |trades| == 0 then []
    else
      var n := |trades| - 1;
      ResponsesFor(trades[..n], outrecipe, recipes)
        + [Response(trades[n], Material(trades[n].amt, ResponseComposition(outrecipe, recipes, trades[n])))]
  }

  // ---------------------------------------------------------------- bids

  /** Bids match the requests one for one and in order; each offers min(target quantity, maxQty) of comp. */
  lemma {:induction false} BidsForShape(requests: seq<Request>, maxQty: real, comp: Composition)
    ensures |BidsFor(requests, maxQty, comp)| == |requests|
    ensures forall i :: 0 <= i < |requests| ==>
              BidsFor(requests, maxQty, comp)[i] == Bid(requests[i], Material(Min(requests[i].target.quantity, maxQty), comp))
  {
    if |requests| > 0 {
      BidsForShape(requests[..|requests| - 1], maxQty, comp);
    }
  }

  /** No bid offers more than the bound, nor more than its request asked for. */
  lemma BidsForBounded(requests: seq<Request>, maxQty: real, comp: Composition)
    ensures forall b :: b in BidsFor(requests, maxQty, comp) ==>
              b.offer.quantity <= maxQty && b.offer.quantity <= b.request.target.quantity
  {
    BidsForShape(requests, maxQty, comp);
  }

  /** With a non-negative bound and non-negative targets, no bid is negative. */
  lemma BidsForNonNegative(requests: seq<Request>, maxQty: real, comp: Composition)
    requires maxQty >= 0.0
    requires forall i :: 0 <= i < |requests| ==> requests[i].target.quantity >= 0.0
    ensures forall b :: b in BidsFor(requests, maxQty, comp) ==> b.offer.quantity >= 0.0
  {
    BidsForShape(requests, maxQty, comp);
  }

  /** Nothing is offered exactly when the bound is below Eps or no request exists for the output commodity. */
  lemma MatlBidsEmptyIff(currentThroughput: real, inventorySize: real, outcommod: string, outrecipe: string,
                         commodRequests: map<string, seq<Request>>, recipes: RecipeBook)
    ensures MatlBids(currentThroughput, inventorySize, outcommod, outrecipe, commodRequests, recipes) == Success({})
        <==> Min(currentThroughput, inventorySize) < Eps || outcommod !in commodRequests
  {
  }

  /**
   * When the facility bids, it offers one portfolio: one bid per request for
   * its commodity, in order, each of min(target, bound) built from the output
   * recipe, and exactly one capacity constraint, equal to the bound.
   */
  lemma MatlBidsPortfolio(currentThroughput: real, inventorySize: real, outcommod: string, outrecipe: string,
                          commodRequests: map<string, seq<Request>>, recipes: RecipeBook)
    requires Min(currentThroughput, inventorySize) >= Eps && outcommod in commodRequests
    requires outrecipe in recipes
    ensures var bids := MatlBids(currentThroughput, inventorySize, outcommod, outrecipe, commodRequests, recipes);
      bids.Success? && |bids.value| == 1
    ensures var maxQty := Min(currentThroughput, inventorySize);
      var requests := commodRequests[outcommod];
      forall port :: port in MatlBids(currentThroughput, inventorySize, outcommod, outrecipe, commodRequests, recipes).value ==>
        && port.constraints == [maxQty]
        && |port.bids| == |requests|
        && forall i :: 0 <= i < |requests| ==>
             && port.bids[i].request == requests[i]
             && port.bids[i].offer.quantity == Min(requests[i].target.quantity, maxQty)
             && port.bids[i].offer.quantity <= maxQty
             && port.bids[i].offer.comp == recipes[outrecipe]
  {
    var maxQty := Min(currentThroughput, inventorySize);
    var requests := commodRequests[outcommod];
    BidsForShape(requests, maxQty, recipes[outrecipe]);
    var port := BidPortfolio(BidsFor(requests, maxQty, recipes[outrecipe]), [maxQty]);
    assert MatlBids(currentThroughput, inventorySize, outcommod, outrecipe, commodRequests, recipes) == Success({port});
    assert |{port}| == 1;
  }

  /**
   * The bid material ignores the requested composition even when no output
   * recipe is configured: it is the recipe registered under the empty name,
   * and without one the bid raises a key error.
   */
  lemma BidCompositionIgnoresTarget(currentThroughput: real, inventorySize: real, outcommod: string,
                                    commodRequests: map<string, seq<Request>>, recipes: RecipeBook)
    requires Min(currentThroughput, inventorySize) >= Eps && outcommod in commodRequests
    requires |commodRequests[outcommod]| > 0
    ensures "" !in recipes ==>
      MatlBids(currentThroughput, inventorySize, outcommod, "", commodRequests, recipes) == Failure(RecipeNotFound(""))
    ensures "" in recipes ==>
      forall port, b :: (port in MatlBids(currentThroughput, inventorySize, outcommod, "", commodRequests, recipes).value
        && b in port.bids) ==> b.offer.comp == recipes[""]
  {
    if "" in recipes {
      var maxQty := Min(currentThroughput, inventorySize);
      BidsForShape(commodRequests[outcommod], maxQty, recipes[""]);
    }
  }

  // ---------------------------------------------------------------- trades

  /** Responses match the trades one for one and in order, each of exactly the traded quantity and the policy's composition. */
  lemma {:induction false} ResponsesForShape(trades: seq<Trade>, outrecipe: string, recipes: RecipeBook)
    requires RecipeResolvable(outrecipe, recipes)
    ensures |ResponsesFor(trades, outrecipe, recipes)| == |trades|
    ensures forall i :: 0 <= i < |trades| ==>
              && ResponsesFor(trades, outrecipe, recipes)[i].trade == trades[i]
              && ResponsesFor(trades, outrecipe, recipes)[i].material.quantity == trades[i].amt
              && ResponsesFor(trades, outrecipe, recipes)[i].material.comp == ResponseComposition(outrecipe, recipes, trades[i])
  {
    if |trades| > 0 {
      ResponsesForShape(trades[..|trades| - 1], outrecipe, recipes);
    }
  }

  /**
   * The recipe policy of responses: with an output recipe every response has
   * that recipe's composition whatever was requested; without one every
   * response mirrors its request's target composition.
   */
  lemma ResponseRecipePolicy(trades: seq<Trade>, outrecipe: string, recipes: RecipeBook)
    requires RecipeResolvable(outrecipe, recipes)
    ensures outrecipe != "" ==>
      forall r :: r in ResponsesFor(trades, outrecipe, recipes) ==> r.material.comp == recipes[outrecipe]
    ensures outrecipe == "" ==>
      forall r :: r in ResponsesFor(trades, outrecipe, recipes) ==> r.material.comp == r.trade.request.target.comp
  {
    ResponsesForShape(trades, outrecipe, recipes);
  }

  /** Fulfilling two batches one after the other debits the sum of both. */
  lemma {:induction false} TotalAmountAppend(a: seq<Trade>, b: seq<Trade>)
    ensures TotalAmount(a + b) == TotalAmount(a) + TotalAmount(b)
  {
    if |b| > 0 {
      var n := |b| - 1;
      assert (a + b)[..|a + b| - 1] == a + b[..n];
      TotalAmountAppend(a, b[..n]);
    } else {
      assert a + b == a;
    }
  }

  /** Non-negative trade amounts add up to a non-negative total. */
  lemma {:induction false} TotalAmountNonNegative(trades: seq<Trade>)
    requires forall i :: 0 <= i < |trades| ==> trades[i].amt >= 0.0
    ensures TotalAmount(trades) >= 0.0
  {
    if |trades| > 0 {
      TotalAmountNonNegative(trades[..|trades| - 1]);
    }
  }

  /**
   * If the exchange clears no more against the facility than the capacity
   * constraint it published, and no trade amount is negative, the inventory
   * after fulfilment stays between zero and what it was.
   */
  lemma ClearingWithinConstraintKeepsInventory(currentThroughput: real, inventorySize: real, trades: seq<Trade>)
    requires forall i :: 0 <= i < |trades| ==> trades[i].amt >= 0.0
    requires TotalAmount(trades) <= Min(currentThroughput, inventorySize)
    ensures 0.0 <= inventorySize - TotalAmount(trades) <= inventorySize
  {
    TotalAmountNonNegative(trades);
  }
}

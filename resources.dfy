/**
 * The resource-exchange records that the supply facility reads and produces:
 * materials, requests, bids, bid portfolios, trades and trade responses.
 * The framework's reference-counted objects are modelled as plain values that
 * hold exactly the fields the facility reads or sets.
 */
module Resources {
  import opened Wrappers

  /** A nuclide identifier (the framework uses integer nuclide ids). */
  type Nuclide = int

  /**
   * An isotopic composition. The facility never looks inside one: it only
   * copies it from a recipe or from a request's target, so its content is
   * opaque to the model.
   */
  datatype Composition = Composition(massFractions: map<Nuclide, real>)

  /** A quantity (kg) of material of a given composition. */
  datatype Material = Material(quantity: real, comp: Composition)

  /** A demand request: the requested commodity and the target material it describes. */
  datatype Request = Request(commodity: string, target: Material)

  /** An offer answering one request with one material. */
  datatype Bid = Bid(request: Request, offer: Material)

  /**
   * The bids of one agent for one exchange round, with the capacity constraints
   * that bound the total quantity the exchange may clear against them.
   */
  datatype BidPortfolio = BidPortfolio(bids: seq<Bid>, constraints: seq<real>)

  /** A cleared trade: the request, the accepted bid and the quantity to ship. */
  datatype Trade = Trade(request: Request, bid: Bid, amt: real)

  /** The material shipped for a trade, paired with that trade. */
  datatype Response = Response(trade: Trade, material: Material)

  /** Errors raised by the simulation context while the facility trades. */
  datatype ExchangeError = RecipeNotFound(name: string)

  /** The recipes the simulation context knows, by name. */
  type RecipeBook = map<string, Composition>

  /**
   * Recipe lookup by name in the simulation context: the named recipe, or a
   * key error when no recipe of that name was registered.
   */
  function GetRecipe(recipes: RecipeBook, name: string): (r: Result<Composition, ExchangeError>)
    ensures r.Success? <==> name in recipes
    ensures r.Success? ==> r.value == recipes[name]
    ensures r.Failure? ==> r.error == RecipeNotFound(name)
  {
    if name in recipes then Success(recipes[name]) else Failure(RecipeNotFound(name))
  }
}

/** The data the production-plan allocator works on: fuel prices, power plants
    as a request declares them, and the errors the allocator raises. */
module PowerPlants {

  /** Fuel prices and wind availability of one request. */
  datatype Fuels = Fuels(
    gasEuroPerMwh: real,
    kerosineEuroPerMwh: real,
    co2EuroPerTon: real,
    windPercentage: real)

  /** A power plant as declared in the request; pmin and pmax are in MW. */
  datatype Plant = Plant(name: string, kind: string, efficiency: real, pmin: real, pmax: real)

  /** The ValueError the allocator raises, one constructor per message. */
  datatype Error =
    | UnknownPlantType(kind: string)
    | PminAbovePmax(name: string)
    | InsufficientCapacity
    | CannotIncrease
    | CannotDecrease

  datatype Result<T> = Ok(value: T) | Err(error: Error)

  const WindTurbine: string := "windturbine"
  const GasFired: string := "gasfired"
  const Turbojet: string := "turbojet"

  /** The plant types the cost function knows. */
  predicate KnownKind(kind: string)
  {
    kind == WindTurbine || kind == GasFired || kind == Turbojet
  }

  /** The three plant types are different names. */
  lemma KindsDistinct()
    ensures WindTurbine != GasFired && WindTurbine != Turbojet && GasFired != Turbojet
  {
    assert GasFired[0] != Turbojet[0];
  }

  /** Bounds the request layer puts on the fuel record. */
  predicate ValidFuels(f: Fuels)
  {
    && 0.0 <= f.gasEuroPerMwh
    && 0.0 <= f.kerosineEuroPerMwh
    && 0.0 <= f.co2EuroPerTon
    && 0.0 <= f.windPercentage <= 100.0
  }

  /** Bounds the request layer puts on each plant. */
  predicate ValidPlant(p: Plant)
  {
    0.0 < p.efficiency <= 1.0 && 0.0 <= p.pmin && 0.0 <= p.pmax
  }

  /** Every plant can be divided by its efficiency. */
  predicate PositiveEfficiencies(plants: seq<Plant>)
  {
    forall k :: 0 <= k < |plants| ==> 0.0 < plants[k].efficiency
  }

  /** A request as the request layer hands it to the allocator. */
  predicate ValidRequest(load: real, f: Fuels, plants: seq<Plant>)
  {
    && 0.0 < load
    && ValidFuels(f)
    && forall k :: 0 <= k < |plants| ==> ValidPlant(plants[k])
  }

  /** The allocation is keyed by plant name, so names identify plants. */
  predicate UniqueNames(plants: seq<Plant>)
  {
    forall k, k' :: 0 <= k < k' < |plants| ==> plants[k].name != plants[k'].name
  }
}

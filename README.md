# Production-plan allocator

A model of the production-plan allocator of the powerplant coding challenge
(`main.py`). Given a load in MW, fuel prices, the wind availability and a list
of power plants, the allocator decides how much power each plant produces:

- `calculate_marginal_cost` prices one MWh from a plant by its type:
  - wind costs nothing;
  - gas costs its fuel price divided by its efficiency, plus 0.3 t of CO2 per
    MWh when CO2 is counted;
  - a turbojet costs its kerosine price divided by its efficiency;
  - any other type is an error.
- `allocate_power` works in integer units of 0.1 MW, in three phases:
  1. it derives each plant's cost and scaled minimum and maximum (wind derated
     by the availability), rejects a plant whose minimum exceeds its maximum,
     and rejects a load above the fleet's capacity;
  2. it sorts the plants by cost, keeping input order among equal costs (the
     merit order), and makes one pass that gives each plant whose minimum fits
     the remaining load as much of it as its maximum allows;
  3. it moves one unit at a time until no load remains: the cheapest plant
     below its maximum gets a unit while load remains, the dearest plant
     above its minimum gives one back if too much was allocated.

  It returns one entry per plant, in input order, with the plant's power in MW.

Modules:
- `PowerPlants` (`plants.dfy`): the request data, the errors and the request
  bounds.
- `Cost` (`cost.dfy`): the cost function and its properties.
- `MeritOrder` (`merit_order.dfy`): the stable sort by cost, and Python's `min`
  and `max` with a key (the first extremal candidate).
- `Dispatch` (`dispatch.dfy`):
  - functions that give each phase's result;
  - the methods `NormalizePlants`, `GreedyPass`, `MoveOneUnit`,
    `CorrectionPass` and `AllocatePower`, which compute that result the way the
    program does, with loops over an allocation array indexed by plant;
  - a proof that each method's result equals the corresponding function.
- `DispatchProperties` (`dispatch_properties.dfy`): what the allocator
  guarantees:
  - the invariants of the two passes;
  - that the two "cannot increase/decrease" errors never occur;
  - that a plan meets the load exactly;
  - the shape of the output;
  - a worked example.

Plants are identified by their position in the input. The program keys its
allocation by plant name, so this is faithful only when names are unique,
which `AllocatePower` requires.

Take this request: wind at 50 % of 100 MW, gas with minimum 20 MW, maximum
100 MW and efficiency 0.5, load 60 MW. Gas must run at 0 or at 20 MW or more,
and wind gives at most 50 MW, so a plan that keeps every plant off or within its
bounds needs gas at 20 MW or more (wind 40 MW and gas 20 MW, say). The code does
not find such a plan. The merit-order pass gives wind 50 MW and leaves gas off.
Phase 3 then raises gas unit by unit to 10 MW, below its minimum. The model
follows the code: `DispatchProperties.GasBelowMinimumExample` proves this
outcome. The "off or within bounds" property is proved only for the end of the
merit-order pass (`DispatchProperties.GreedyOutcome`).

## Model

| member | source | states |
|---|---|---|
| Cost.MarginalCost | main.py:18-30 | A cost exists exactly for wind, gas and turbojet plants. Any other type is an error naming the type. Wind costs 0. With non-negative prices every cost is non-negative. |
| Cost.ThermalCost | main.py:21-28 | Gas costs gas price / efficiency, plus 0.3 × CO2 price when CO2 is counted. A turbojet costs kerosine price / efficiency. |
| Cost.Co2Surcharge | main.py:23-25 | Switching CO2 on adds exactly 0.3 × CO2 price to a gas plant's cost and nothing to the other types. |
| Cost.CostMonotoneInPrices | main.py:18-30 | Raising the gas, kerosine or CO2 price never lowers any plant's cost. |
| Cost.GasCostMonotone | main.py:21-26 | Raising the gas or CO2 price never lowers a gas plant's cost. |
| Cost.TurbojetCostMonotone | main.py:27-28 | Raising the kerosine price never lowers a turbojet's cost. |
| Cost.CostAntitoneInEfficiency | main.py:22-28 | Of two plants that differ only in efficiency, the more efficient one never costs more. |
| MeritOrder.SortedDistinct | main.py:51 | A list sorted by (cost, input position) names no plant twice. |
| MeritOrder.Insert | main.py:51 | Inserting a plant into a sorted list keeps it sorted and adds exactly that plant. |
| MeritOrder.SortPrefix | main.py:51 | The first n plants sorted by (cost, input position), each listed once. |
| MeritOrder.SortByCost | main.py:51 | The result lists every plant exactly once, by ascending cost, and equal costs in input order (a stable sort). |
| MeritOrder.SortedUnique | main.py:51 | Two sorted lists of the same plants are the same list. |
| MeritOrder.MeritOrderUnique | main.py:51 | Any list that stably sorts all plants by cost is SortByCost's result. |
| MeritOrder.FirstMinOf | main.py:76 | Among the first n candidates, the position of one of least cost, and the first such. |
| MeritOrder.FirstMaxOf | main.py:86 | Among the first n candidates, the position of one of greatest cost, and the first such. |
| MeritOrder.FirstMin | main.py:76 | `min(candidates, key=cost)`: the first candidate of least cost. |
| MeritOrder.FirstMax | main.py:86 | `max(candidates, key=cost)`: the first candidate of greatest cost. |
| MeritOrder.FirstMinSnoc | main.py:76 | With one more candidate at the end, `min` moves to it only when it is strictly cheaper than the old minimum. |
| MeritOrder.FirstMaxSnoc | main.py:86 | With one more candidate at the end, `max` moves to it only when it is strictly dearer than the old maximum. |
| Dispatch.Trunc | main.py:34 | Python's `int()` truncates toward zero. For x ≥ 0 the result r satisfies r ≤ x < r + 1. For x < 0 it satisfies x ≤ r < x + 1. |
| Dispatch.LoadScaled | main.py:34 | The load in whole units of 0.1 MW, truncated toward zero: for a non-negative load L the result r satisfies 0 ≤ r ≤ 10·L < r + 1. |
| Dispatch.ScaledMin | main.py:39 | A plant's minimum in whole units of 0.1 MW, truncated toward zero: for pmin ≥ 0, 0 ≤ r ≤ 10·pmin < r + 1. |
| Dispatch.ScaledMax | main.py:40-43 | A plant's maximum in whole units of 0.1 MW, truncated toward zero, taken from its effective maximum (pmax, derated by the wind availability for a wind turbine): for a non-negative effective maximum m, 0 ≤ r ≤ 10·m < r + 1. |
| Dispatch.NormalizePlant | main.py:38-46 | A plant passes exactly when its type is known and its scaled minimum is at most its scaled maximum. It then yields its cost and both scaled bounds. Otherwise the error is the unknown type, or else "pmin > pmax" naming the plant. |
| Dispatch.Normalize | main.py:37-46 | Phase 1 yields one record per plant. |
| Dispatch.NormalizeExtend | main.py:37-46 | Phase 1 on one more plant fails like the earlier plants, or else like the new plant, or else appends the new plant's record. |
| Dispatch.NormalizeFirstError | main.py:37-46 | Once a prefix of the plants fails, the whole list fails with the same error. |
| Dispatch.NormalizeStopsAt | main.py:37-46 | If every earlier plant passes and plant i fails, phase 1 fails with plant i's error. |
| Dispatch.SumUpdate | main.py:77 | Changing one plant's allocation changes the allocation's total by exactly the difference. |
| Dispatch.TotalMax | main.py:35-44 | The running total of the scaled maxima is the fleet's capacity; it is non-negative when every scaled maximum is. |
| Dispatch.Costs | main.py:51 | The sort key of plant j is plant j's cost. |
| Dispatch.Zeros | main.py:52 | The allocation starts at 0 for every plant. |
| Dispatch.GreedyStep | main.py:58-66 | If the plant's minimum does not fit the remaining load, nothing changes: the `elif` assignment never runs. Otherwise the plant gets min(max, remaining). The remaining load drops by exactly that. Either the plant reaches its maximum or no load remains. With valid bounds and non-negative load, the plant ends off or within its bounds. |
| Dispatch.GreedyFrom | main.py:57-66 | The merit-order pass from position k on keeps one entry per plant. |
| Dispatch.Greedy | main.py:52-66 | The merit-order pass from all plants at 0 keeps one entry per plant. |
| Dispatch.BelowMax | main.py:70-73 | The raise candidates are plants of the merit order, each below its maximum. |
| Dispatch.AboveMin | main.py:80-83 | The cut candidates are plants of the merit order, each above its minimum. |
| Dispatch.CheapestBelowMax | main.py:70-76 | The plant a raise goes to is below its maximum, or -1 when there is none. |
| Dispatch.DearestAboveMin | main.py:80-86 | The plant a cut comes from is above its minimum, or -1 when there is none. |
| Dispatch.CheapestExistsIffCandidates | main.py:70-75 | There is a plant to raise exactly when the raise candidates are not empty. |
| Dispatch.CheapestIsMinOfCandidates | main.py:70-76 | `min(candidates, key=cost)` picks the plant CheapestBelowMax names. |
| Dispatch.DearestExistsIffCandidates | main.py:80-85 | There is a plant to cut exactly when the cut candidates are not empty. |
| Dispatch.DearestIsMaxOfCandidates | main.py:80-86 | `max(candidates, key=cost)` picks the plant DearestAboveMin names. |
| Dispatch.CorrectionStep | main.py:69-88 | One move of phase 3 keeps one entry per plant and changes the allocation's total by one unit toward the load: up while load remains, down otherwise. It fails only with "cannot increase" while load remains, and only with "cannot decrease" otherwise. |
| Dispatch.Correction | main.py:68-88 | Phase 3, when it succeeds, keeps one entry per plant and moves the allocation's total by exactly the remaining load. It fails only with "cannot increase" or "cannot decrease". |
| Dispatch.CorrectionUnfold | main.py:68-88 | After a successful move, phase 3 continues from the moved allocation, with the remaining load one step closer to 0. |
| Dispatch.Plan | main.py:48-88 | A successful plan has one entry per plant. |
| Dispatch.Output | main.py:90 | The response has one entry per plant, in input order. Each entry carries the plant's name and its allocation divided by 10. |
| Dispatch.Allocation | main.py:32-92 | A successful request yields one entry per plant, in input order, each named after its plant. |
| Dispatch.NormalizePlants | main.py:37-46 | The phase-1 loop yields Normalize's result. On success its running total is the fleet's scaled capacity. |
| Dispatch.GreedyPass | main.py:53-66 | The merit-order loop, updating the array in place, leaves the array and remaining load that Greedy gives. |
| Dispatch.MoveOneUnit | main.py:69-88 | One iteration of the correction loop returns CorrectionStep's result and, on success, leaves it in the array. |
| Dispatch.CorrectionPass | main.py:68-88 | The correction loop returns Correction's result and, on success, leaves it in the array. |
| Dispatch.AllocatePower | main.py:32-92 | The whole allocator returns Allocation's result. |
| DispatchProperties.WithinCapacity | main.py:44-49 | No allocation that keeps every plant at or below its maximum adds up to more than the fleet's capacity, so a load the capacity check rejects cannot be met. |
| DispatchProperties.SomeBelowMax | main.py:48-49 | While the allocation is below the fleet's capacity, some plant is below its maximum. |
| DispatchProperties.NormalizeOutcome | main.py:37-46 | Phase 1 succeeds exactly when every plant passes. Its records are then the plants' records in input order. |
| DispatchProperties.NormalizeFirstFailure | main.py:37-46 | A failing phase 1 reports the error of the first plant that fails. |
| DispatchProperties.ScaledBounds | main.py:39-43 | For a valid plant, both scaled bounds are non-negative. The scaled maximum never exceeds 10 × the effective maximum (wind derated). |
| DispatchProperties.NormalizeValid | main.py:37-46 | On a valid request, every record from phase 1 has 0 ≤ minimum ≤ maximum. |
| DispatchProperties.GreedyFromKeeps | main.py:57-66 | From any position, the merit-order pass keeps the remaining load non-negative. It conserves allocation + remaining load, and leaves every plant off or within its bounds. |
| DispatchProperties.GreedyOutcome | main.py:51-66 | After the merit-order pass the remaining load is ≥ 0, and allocation + remaining load equals the load. Every plant is 0 or within [min, max]. |
| DispatchProperties.BelowMaxMembers | main.py:70-73 | A plant is a raise candidate exactly when it is in the merit order and below its maximum. |
| DispatchProperties.AboveMinMembers | main.py:80-83 | A plant is a cut candidate exactly when it is in the merit order and above its minimum. |
| DispatchProperties.CheapestIsFirstMinimal | main.py:70-76 | The raised plant has the least cost among plants below their maximum, and comes first in merit order among those. There is none exactly when every plant is at its maximum. |
| DispatchProperties.CheapestExists | main.py:70-75 | While some plant is below its maximum, a raise finds a plant. |
| DispatchProperties.IncreaseGoesToCheapest | main.py:51-78 | In the merit order, a unit of remaining load goes to the cheapest plant below its maximum. Among equally cheap plants it goes to the earliest in the input. |
| DispatchProperties.RaiseChoice | main.py:69-78 | While some plant is below its maximum, a move with load remaining succeeds and raises one such plant by one unit. |
| DispatchProperties.RaiseStep | main.py:68-78 | The same move, as the step phase 3 takes before continuing with one unit less. |
| DispatchProperties.RaiseWithinMax | main.py:69-78 | With load remaining and every plant at or below its maximum, a move raises the allocation's total by one unit, lowers no plant and keeps every plant at or below its maximum. |
| DispatchProperties.CorrectionMeetsLoad | main.py:68-88 | Suppose the remaining load is non-negative, no plant is above its maximum, and the load fits the capacity. Then phase 3 succeeds, and only raises plants. It meets the load exactly, and keeps every plant at or below its maximum. |
| DispatchProperties.CorrectionFillsOnlyCandidate | main.py:68-78 | When only one plant is below its maximum and it has room, phase 3 gives that plant all the remaining load. |
| DispatchProperties.PlanOutcome | main.py:48-88 | A plan succeeds exactly when the load fits the capacity, and fails only with "insufficient capacity". "Cannot increase" and "cannot decrease" never occur. A plan sums to the load, with each plant between 0 and its maximum. |
| DispatchProperties.OutputTotal | main.py:90 | The response's powers add up to the scaled allocation / 10. |
| DispatchProperties.DispatchOutcome | main.py:37-49 | On a valid request, the allocator fails exactly when phase 1 rejects a plant, with that error, or the load exceeds the capacity, with "insufficient capacity". |
| DispatchProperties.DispatchOutput | main.py:32-92 | A response names every plant once, in input order. Each power lies between 0 and the plant's effective maximum. The powers add up to the load truncated to 0.1 MW. |
| DispatchProperties.ExampleNormalize | main.py:37-46 | In the example, wind costs 0 with scaled bounds 0..500. Gas costs 13.4 / 0.5 + 0.3 × 20 with scaled bounds 200..1000. |
| DispatchProperties.ExampleGreedy | main.py:57-66 | In the example, the merit-order pass gives wind 500 units and leaves 100 units, below gas's minimum. |
| DispatchProperties.ExamplePlan | main.py:48-88 | In the example, phase 3 raises gas to 100 units. |
| DispatchProperties.GasBelowMinimumExample | main.py:32-92 | Wind 50 % of 100 MW, gas with minimum 20 MW and load 60 MW give wind 50 MW and gas 10 MW, below gas's minimum. |

## Left out

- The web layer: the FastAPI app, its routes, the HTTP error mapping, logging
  and the server start-up (main.py:1-16, main.py:94-110). They are I/O.
- Request validation: the pydantic field bounds in models.py are the library's
  own checks. They appear as the predicate `ValidRequest`, which the property
  lemmas assume. The allocator itself requires that every plant has a positive
  efficiency (guaranteed by the request layer) and that names are unique.
- Floating point: loads, bounds, prices and costs are exact reals. `int()` is
  exact truncation toward zero, and `/ SCALE` is exact division. Rounding in the
  cost formulas and in `load * SCALE` is not modelled.
- Dict updates: the program writes `marginal_cost`, `pmin_scaled` and
  `pmax_scaled` into each caller's plant dict. The model derives a `Normalized`
  record per plant instead, and does not capture the caller seeing its dicts
  change.
- Dispatch.AllocatePower: requires unique plant names. With duplicate names the
  program's name-keyed allocation merges plants and returns fewer entries, which
  the model, indexing plants by position, does not capture.
- The decrease branch of the correction loop and its "cannot decrease" error
  are modelled, but only their unreachability is proved (PlanOutcome). No
  property of the branch itself is stated beyond DearestIsMaxOfCandidates.

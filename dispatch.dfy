/** The allocator: given a load, fuel prices and plants, how much power each
    plant produces.  Power is counted in integer units of 0.1 MW.  The
    functions below give the allocator's result; AllocatePower computes it
    the way the program does, in place on an array. */
module Dispatch {
  import opened PowerPlants
  import opened Cost
  import opened MeritOrder

  /** Scaled units per MW. */
  const Scale: int := 10

  /** Python's `int()` on a number: truncation toward zero. */
  function Trunc(x: real): (r: int)
    ensures 0.0 <= x ==> 0 <= r && r as real <= x < r as real + 1.0
    ensures x < 0.0 ==> r <= 0 && x <= r as real < x + 1.0
  {
    if 0.0 <= x then x.Floor else -((-x).Floor)
  }

  /** The load in scaled units. */
  function LoadScaled(load: real): (r: int)
    ensures 0.0 <= load ==> 0 <= r && r as real <= load * Scale as real < r as real + 1.0
    ensures load < 0.0 ==> r <= 0 && load * Scale as real <= r as real < load * Scale as real + 1.0
  {
    Trunc(load * Scale as real)
  }

  /** A plant's minimum in scaled units. */
  function ScaledMin(p: Plant): (r: int)
    ensures 0.0 <= p.pmin ==> 0 <= r && r as real <= p.pmin * Scale as real < r as real + 1.0
    ensures p.pmin < 0.0 ==> r <= 0 && p.pmin * Scale as real <= r as real < p.pmin * Scale as real + 1.0
  {
    Trunc(p.pmin * Scale as real)
  }

  /** The effective maximum of a plant in MW: a wind turbine's is derated by
      the wind availability. */
  function EffectiveMax(p: Plant, f: Fuels): real
  {
    if p.kind == WindTurbine then p.pmax * (f.windPercentage / 100.0) else p.pmax
  }

  /** A plant's maximum in scaled units; a wind turbine's maximum is derated
      by the wind availability. */
  function ScaledMax(p: Plant, f: Fuels): (r: int)
    ensures var m := EffectiveMax(p, f) * Scale as real;
      0.0 <= m ==> 0 <= r && r as real <= m < r as real + 1.0
    ensures var m := EffectiveMax(p, f) * Scale as real;
      m < 0.0 ==> r <= 0 && m <= r as real < m + 1.0
  {
    if p.kind == WindTurbine then
      Trunc(p.pmax * (f.windPercentage / 100.0) * Scale as real)
    else
      Trunc(p.pmax * Scale as real)
  }

  /** What the allocator derives for a plant: its marginal cost and its
      scaled minimum and maximum. */
  datatype Normalized = Normalized(cost: real, pminScaled: int, pmaxScaled: int)

  /** Phase 1 for one plant: its cost, then its scaled bounds, rejecting a
      minimum above the maximum. */
  function NormalizePlant(p: Plant, f: Fuels, includeCo2: bool): (r: Result<Normalized>)
    requires 0.0 < p.efficiency
    ensures r.Ok? <==> KnownKind(p.kind) && ScaledMin(p) <= ScaledMax(p, f)
    ensures r.Err? ==>
      r.error == if KnownKind(p.kind) then PminAbovePmax(p.name) else UnknownPlantType(p.kind)
    ensures r.Ok? ==>
      && r.value.cost == MarginalCost(p, f, includeCo2).value
      && r.value.pminScaled == ScaledMin(p)
      && r.value.pmaxScaled == ScaledMax(p, f)
  {
    match MarginalCost(p, f, includeCo2)
    case Err(e) => Err(e)
    case Ok(c) =>
      var u := Normalized(c, ScaledMin(p), ScaledMax(p, f));
      if u.pminScaled > u.pmaxScaled then Err(PminAbovePmax(p.name)) else Ok(u)
  }

  /** Phase 1 over the plants in input order; the first plant that fails
      decides the error. */
  function Normalize(plants: seq<Plant>, f: Fuels, includeCo2: bool): (r: Result<seq<Normalized>>)
    requires PositiveEfficiencies(plants)
    ensures r.Ok? ==> |r.value| == |plants|
  {
    if plants == [] then
      Ok([])
    else
      match Normalize(plants[..|plants| - 1], f, includeCo2)
      case Err(e) => Err(e)
      case Ok(us) =>
        match NormalizePlant(plants[|plants| - 1], f, includeCo2)
        case Err(e) => Err(e)
        case Ok(u) => Ok(us + [u])
  }

  /** Phase 1 on one more plant: the first i + 1 plants fail as the first i
      do, or else as plant i does, or else add plant i's figures. */
  lemma NormalizeExtend(plants: seq<Plant>, i: nat, f: Fuels, includeCo2: bool)
    requires PositiveEfficiencies(plants) && i < |plants|
    ensures Normalize(plants[..i + 1], f, includeCo2) ==
      match Normalize(plants[..i], f, includeCo2)
      case Err(e) => Err(e)
      case Ok(us) =>
        match NormalizePlant(plants[i], f, includeCo2)
        case Err(e) => Err(e)
        case Ok(u) => Ok(us + [u])
  {
    assert plants[..i + 1][..i] == plants[..i] && plants[..i + 1][i] == plants[i];
  }

  /** Once a prefix of the plants fails, the whole list fails the same way. */
  lemma {:induction false} NormalizeFirstError(plants: seq<Plant>, i: nat, f: Fuels, includeCo2: bool)
    requires PositiveEfficiencies(plants) && i <= |plants|
    requires Normalize(plants[..i], f, includeCo2).Err?
    ensures Normalize(plants, f, includeCo2) == Normalize(plants[..i], f, includeCo2)
    decreases |plants|
  {
    if i < |plants| {
      var init := plants[..|plants| - 1];
      assert init[..i] == plants[..i];
      NormalizeFirstError(init, i, f, includeCo2);
    } else {
      assert plants[..i] == plants;
    }
  }

  /** When the first i plants pass and plant i fails, phase 1 fails with
      plant i's error. */
  lemma NormalizeStopsAt(plants: seq<Plant>, i: nat, f: Fuels, includeCo2: bool)
    requires PositiveEfficiencies(plants) && i < |plants|
    requires Normalize(plants[..i], f, includeCo2).Ok? && NormalizePlant(plants[i], f, includeCo2).Err?
    ensures Normalize(plants, f, includeCo2) == Err(NormalizePlant(plants[i], f, includeCo2).error)
  {
    NormalizeExtend(plants, i, f, includeCo2);
    NormalizeFirstError(plants, i + 1, f, includeCo2);
  }

  /** Sum of a list of scaled quantities. */
  function Sum(s: seq<int>): int
  {
    if s == [] then 0 else Sum(s[..|s| - 1]) + s[|s| - 1]
  }

  /** Changing one plant's allocation changes the sum by the difference. */
  lemma {:induction false} SumUpdate(s: seq<int>, j: nat, v: int)
    requires j < |s|
    ensures Sum(s[j := v]) == Sum(s) - s[j] + v
    decreases |s|
  {
    var n := |s| - 1;
    if j == n {
      assert s[j := v][..n] == s[..n];
    } else {
      assert s[j := v][..n] == s[..n][j := v];
      SumUpdate(s[..n], j, v);
    }
  }

  /** The fleet's capacity in scaled units. */
  function TotalMax(units: seq<Normalized>): (r: int)
    ensures (forall j :: 0 <= j < |units| ==> 0 <= units[j].pmaxScaled) ==> 0 <= r
  {
    if units == [] then 0 else TotalMax(units[..|units| - 1]) + units[|units| - 1].pmaxScaled
  }

  /** The costs of the plants, the key of the merit order. */
  function Costs(units: seq<Normalized>): (keys: seq<real>)
    ensures |keys| == |units|
    ensures forall j {:trigger keys[j]} :: 0 <= j < |units| ==> keys[j] == units[j].cost
  {
    seq(|units|, j requires 0 <= j < |units| => units[j].cost)
  }

  /** Python's `min` on two numbers. */
  function Min(a: int, b: int): int
  {
    if a <= b then a else b
  }

  /** The allocation every plant starts from. */
  function Zeros(n: nat): (s: seq<int>)
    ensures |s| == n && forall j :: 0 <= j < n ==> s[j] == 0
  {
    seq(n, _ => 0)
  }

  /** One iteration of the merit-order pass for plant u, which holds
      `current`, with `rem` units of load left: the plant's new allocation and
      the load left after it.  A plant whose minimum fits in the remaining load
      gets as much of that load as its maximum allows; the program's second
      branch, which would hand the whole remainder to a plant whose minimum
      does not fit, never applies, since its guard contradicts the first
      branch failing. */
  function GreedyStep(u: Normalized, current: int, rem: int): (r: (int, int))
    ensures rem < u.pminScaled ==> r == (current, rem)
    ensures rem >= u.pminScaled ==>
      && r.0 + r.1 == rem
      && r.0 <= u.pmaxScaled
      && (r.0 == u.pmaxScaled || r.1 == 0)
    ensures 0 <= rem && 0 <= u.pminScaled <= u.pmaxScaled ==>
      && 0 <= r.1 <= rem
      && (r.0 == current || u.pminScaled <= r.0 <= u.pmaxScaled)
  {
    if rem >= u.pminScaled then
      var power := Min(u.pmaxScaled, rem);
      (power, rem - power)
    else if rem > 0 && u.pminScaled <= rem <= u.pmaxScaled then
      (rem, 0)
    else
      (current, rem)
  }

  /** Phase 2 from position k of the merit order on. */
  function GreedyFrom(units: seq<Normalized>, order: seq<nat>, k: nat, alloc: seq<int>, rem: int): (r: (seq<int>, int))
    requires InRange(order, |units|) && |alloc| == |units| && k <= |order|
    ensures |r.0| == |alloc|
    decreases |order| - k
  {
    if k == |order| then
      (alloc, rem)
    else
      var j := order[k];
      var next := GreedyStep(units[j], alloc[j], rem);
      GreedyFrom(units, order, k + 1, alloc[j := next.0], next.1)
  }

  /** Phase 2: the allocation and the remaining load after one pass over the
      merit order, starting from all plants at 0. */
  function Greedy(units: seq<Normalized>, order: seq<nat>, loadScaled: int): (r: (seq<int>, int))
    requires InRange(order, |units|)
    ensures |r.0| == |units|
  {
    GreedyFrom(units, order, 0, Zeros(|units|), loadScaled)
  }

  /** The plants of the merit order still below their maximum, in merit
      order. */
  function BelowMax(units: seq<Normalized>, order: seq<nat>, alloc: seq<int>): (c: seq<nat>)
    requires InRange(order, |units|) && |alloc| == |units|
    ensures InRange(c, |units|) && |c| <= |order|
    ensures forall k :: 0 <= k < |c| ==> alloc[c[k]] < units[c[k]].pmaxScaled
  {
    if order == [] then []
    else
      var j := order[|order| - 1];
      BelowMax(units, order[..|order| - 1], alloc) + if alloc[j] < units[j].pmaxScaled then [j] else []
  }

  /** The plants of the merit order still above their minimum, in merit
      order. */
  function AboveMin(units: seq<Normalized>, order: seq<nat>, alloc: seq<int>): (c: seq<nat>)
    requires InRange(order, |units|) && |alloc| == |units|
    ensures InRange(c, |units|) && |c| <= |order|
    ensures forall k :: 0 <= k < |c| ==> alloc[c[k]] > units[c[k]].pminScaled
  {
    if order == [] then []
    else
      var j := order[|order| - 1];
      AboveMin(units, order[..|order| - 1], alloc) + if alloc[j] > units[j].pminScaled then [j] else []
  }

  /** The plant a raise goes to: the first plant of the merit order, among
      those below their maximum, with the smallest cost; -1 when every plant
      is at its maximum. */
  function CheapestBelowMax(units: seq<Normalized>, order: seq<nat>, alloc: seq<int>): (p: int)
    requires InRange(order, |units|) && |alloc| == |units|
    ensures -1 <= p < |units|
    ensures 0 <= p ==> alloc[p] < units[p].pmaxScaled
  {
    if order == [] then -1
    else
      var p := CheapestBelowMax(units, order[..|order| - 1], alloc);
      var j := order[|order| - 1];
      if alloc[j] < units[j].pmaxScaled && (p < 0 || units[j].cost < units[p].cost) then j else p
  }

  /** The plant a cut comes from: the first plant of the merit order, among
      those above their minimum, with the largest cost; -1 when every plant
      is at its minimum. */
  function DearestAboveMin(units: seq<Normalized>, order: seq<nat>, alloc: seq<int>): (p: int)
    requires InRange(order, |units|) && |alloc| == |units|
    ensures -1 <= p < |units|
    ensures 0 <= p ==> alloc[p] > units[p].pminScaled
  {
    if order == [] then -1
    else
      var p := DearestAboveMin(units, order[..|order| - 1], alloc);
      var j := order[|order| - 1];
      if alloc[j] > units[j].pminScaled && (p < 0 || units[p].cost < units[j].cost) then j else p
  }

  /** There is a plant to raise exactly when the raise candidates are not
      empty. */
  lemma {:induction false} CheapestExistsIffCandidates(units: seq<Normalized>, order: seq<nat>, alloc: seq<int>)
    requires InRange(order, |units|) && |alloc| == |units|
    ensures BelowMax(units, order, alloc) == [] <==> CheapestBelowMax(units, order, alloc) < 0
    decreases |order|
  {
    if order != [] {
      CheapestExistsIffCandidates(units, order[..|order| - 1], alloc);
    }
  }

  /** Python's `min(candidates, key=cost)` over the raise candidates picks
      the plant CheapestBelowMax names. */
  lemma {:induction false} CheapestIsMinOfCandidates(units: seq<Normalized>, order: seq<nat>, alloc: seq<int>)
    requires InRange(order, |units|) && |alloc| == |units|
    requires BelowMax(units, order, alloc) != []
    ensures var c := BelowMax(units, order, alloc);
      CheapestBelowMax(units, order, alloc) == c[FirstMin(Costs(units), c)]
    decreases |order|
  {
    var init := order[..|order| - 1];
    var j := order[|order| - 1];
    var keys := Costs(units);
    var c0 := BelowMax(units, init, alloc);
    var p := CheapestBelowMax(units, init, alloc);
    CheapestExistsIffCandidates(units, init, alloc);
    if alloc[j] < units[j].pmaxScaled {
      var c := c0 + [j];
      assert BelowMax(units, order, alloc) == c;
      if c0 != [] {
        CheapestIsMinOfCandidates(units, init, alloc);
        FirstMinSnoc(keys, c0, j);
      }
    } else {
      assert BelowMax(units, order, alloc) == c0;
      CheapestIsMinOfCandidates(units, init, alloc);
    }
  }

  /** There is a plant to cut exactly when the cut candidates are not
      empty. */
  lemma {:induction false} DearestExistsIffCandidates(units: seq<Normalized>, order: seq<nat>, alloc: seq<int>)
    requires InRange(order, |units|) && |alloc| == |units|
    ensures AboveMin(units, order, alloc) == [] <==> DearestAboveMin(units, order, alloc) < 0
    decreases |order|
  {
    if order != [] {
      DearestExistsIffCandidates(units, order[..|order| - 1], alloc);
    }
  }

  /** Python's `max(candidates, key=cost)` over the cut candidates picks the
      plant DearestAboveMin names. */
  lemma {:induction false} DearestIsMaxOfCandidates(units: seq<Normalized>, order: seq<nat>, alloc: seq<int>)
    requires InRange(order, |units|) && |alloc| == |units|
    requires AboveMin(units, order, alloc) != []
    ensures var c := AboveMin(units, order, alloc);
      DearestAboveMin(units, order, alloc) == c[FirstMax(Costs(units), c)]
    decreases |order|
  {
    var init := order[..|order| - 1];
    var j := order[|order| - 1];
    var keys := Costs(units);
    var c0 := AboveMin(units, init, alloc);
    var p := DearestAboveMin(units, init, alloc);
    DearestExistsIffCandidates(units, init, alloc);
    if alloc[j] > units[j].pminScaled {
      var c := c0 + [j];
      assert AboveMin(units, order, alloc) == c;
      if c0 != [] {
        DearestIsMaxOfCandidates(units, init, alloc);
        FirstMaxSnoc(keys, c0, j);
      }
    } else {
      assert AboveMin(units, order, alloc) == c0;
      DearestIsMaxOfCandidates(units, init, alloc);
    }
  }

  /** One move of phase 3: while load remains, the cheapest plant below its
      maximum gets a unit; while too much is allocated, the dearest plant
      above its minimum gives one back. */
  function CorrectionStep(units: seq<Normalized>, order: seq<nat>, alloc: seq<int>, rem: int): (r: Result<seq<int>>)
    requires InRange(order, |units|) && |alloc| == |units| && rem != 0
    ensures r.Ok? ==> |r.value| == |alloc|
    ensures r.Ok? ==> Sum(r.value) == Sum(alloc) + (if rem > 0 then 1 else -1)
    ensures r.Err? ==> r.error == (if rem > 0 then CannotIncrease else CannotDecrease)
  {
    if rem > 0 then
      var j := CheapestBelowMax(units, order, alloc);
      if j < 0 then Err(CannotIncrease) else SumUpdate(alloc, j, alloc[j] + 1); Ok(alloc[j := alloc[j] + 1])
    else
      var j := DearestAboveMin(units, order, alloc);
      if j < 0 then Err(CannotDecrease) else SumUpdate(alloc, j, alloc[j] - 1); Ok(alloc[j := alloc[j] - 1])
  }

  /** Phase 3: one move at a time until nothing remains; the first move that
      finds no candidate is the error. */
  function Correction(units: seq<Normalized>, order: seq<nat>, alloc: seq<int>, rem: int): (r: Result<seq<int>>)
    requires InRange(order, |units|) && |alloc| == |units|
    ensures r.Ok? ==> |r.value| == |alloc|
    ensures r.Ok? ==> Sum(r.value) == Sum(alloc) + rem
    ensures r.Err? ==> r.error == CannotIncrease || r.error == CannotDecrease
    decreases if rem < 0 then -rem else rem
  {
    if rem == 0 then
      Ok(alloc)
    else
      match CorrectionStep(units, order, alloc, rem)
      case Err(e) => Err(e)
      case Ok(next) => Correction(units, order, next, if rem > 0 then rem - 1 else rem + 1)
  }

  /** A successful move hands the rest of phase 3 the moved allocation. */
  lemma CorrectionUnfold(units: seq<Normalized>, order: seq<nat>, alloc: seq<int>, rem: int)
    requires InRange(order, |units|) && |alloc| == |units| && rem != 0
    requires CorrectionStep(units, order, alloc, rem).Ok?
    ensures Correction(units, order, alloc, rem)
      == Correction(units, order, CorrectionStep(units, order, alloc, rem).value, if rem > 0 then rem - 1 else rem + 1)
  {
  }

  /** Phases 2 and 3 on normalized plants, after the capacity check. */
  function Plan(units: seq<Normalized>, loadScaled: int): (r: Result<seq<int>>)
    ensures r.Ok? ==> |r.value| == |units|
  {
    if TotalMax(units) < loadScaled then
      Err(InsufficientCapacity)
    else
      var order := SortByCost(Costs(units));
      var greedy := Greedy(units, order, loadScaled);
      Correction(units, order, greedy.0, greedy.1)
  }

  /** One line of the production plan: a plant and its power in MW. */
  datatype Entry = Entry(name: string, p: real)

  /** The production plan: one entry per plant, in input order, with the
      plant's scaled allocation converted back to MW. */
  function Output(plants: seq<Plant>, alloc: seq<int>): (out: seq<Entry>)
    requires |alloc| == |plants|
    ensures |out| == |plants|
    ensures forall k :: 0 <= k < |out| ==>
      out[k].name == plants[k].name && out[k].p * Scale as real == alloc[k] as real
  {
    seq(|plants|, k requires 0 <= k < |plants| => Entry(plants[k].name, alloc[k] as real / Scale as real))
  }

  /** The allocator's result for a request. */
  function Allocation(load: real, f: Fuels, plants: seq<Plant>, includeCo2: bool): (r: Result<seq<Entry>>)
    requires PositiveEfficiencies(plants)
    ensures r.Ok? ==> |r.value| == |plants|
    ensures r.Ok? ==> forall k :: 0 <= k < |plants| ==> r.value[k].name == plants[k].name
  {
    match Normalize(plants, f, includeCo2)
    case Err(e) => Err(e)
    case Ok(units) =>
      match Plan(units, LoadScaled(load))
      case Err(e) => Err(e)
      case Ok(alloc) => Ok(Output(plants, alloc))
  }

  /** Phase 1 as the program runs it: a loop over the plants that computes
      each plant's cost and scaled bounds and adds up the capacity. */
  method NormalizePlants(plants: seq<Plant>, f: Fuels, includeCo2: bool)
    returns (r: Result<seq<Normalized>>, totalMaxScaled: int)
    requires PositiveEfficiencies(plants)
    ensures r == Normalize(plants, f, includeCo2)
    ensures r.Ok? ==> totalMaxScaled == TotalMax(r.value)
  {
    totalMaxScaled := 0;
    var units: seq<Normalized> := [];
    var i := 0;
    while i < |plants|
      invariant 0 <= i <= |plants|
      invariant Normalize(plants[..i], f, includeCo2) == Ok(units)
      invariant totalMaxScaled == TotalMax(units)
    {
      var p := plants[i];
      var cost := MarginalCost(p, f, includeCo2);
      if cost.Err? {
        NormalizeStopsAt(plants, i, f, includeCo2);
        return Err(cost.error), totalMaxScaled;
      }
      var u := Normalized(cost.value, ScaledMin(p), ScaledMax(p, f));
      totalMaxScaled := totalMaxScaled + u.pmaxScaled;
      if u.pminScaled > u.pmaxScaled {
        NormalizeStopsAt(plants, i, f, includeCo2);
        return Err(PminAbovePmax(p.name)), totalMaxScaled;
      }
      NormalizeExtend(plants, i, f, includeCo2);
      assert (units + [u])[..|units|] == units;
      units := units + [u];
      i := i + 1;
    }
    assert plants[..i] == plants;
    r := Ok(units);
  }

  /** Phase 2 as the program runs it: one pass over the merit order that
      updates the allocation array and the remaining load in place. */
  method GreedyPass(units: seq<Normalized>, order: seq<nat>, alloc: array<int>, loadScaled: int)
    returns (remaining: int)
    requires InRange(order, |units|) && alloc[..] == Zeros(|units|)
    modifies alloc
    ensures (alloc[..], remaining) == Greedy(units, order, loadScaled)
  {
    remaining := loadScaled;
    var k := 0;
    while k < |order|
      invariant 0 <= k <= |order|
      invariant alloc.Length == |units|
      invariant GreedyFrom(units, order, k, alloc[..], remaining) == Greedy(units, order, loadScaled)
    {
      var j := order[k];
      var u := units[j];
      var power, left := alloc[j], remaining;
      if remaining >= u.pminScaled {
        power := Min(u.pmaxScaled, remaining);
        left := remaining - power;
      } else if remaining > 0 {
        if u.pminScaled <= remaining <= u.pmaxScaled {
          power, left := remaining, 0;
        }
      }
      alloc[j] := power;
      remaining := left;
      k := k + 1;
    }
  }

  /** One iteration of phase 3 as the program runs it: builds the candidate
      list, picks the cheapest (or dearest) candidate and moves one unit in the
      allocation array. */
  method MoveOneUnit(units: seq<Normalized>, order: seq<nat>, alloc: array<int>, rem: int)
    returns (r: Result<seq<int>>)
    requires InRange(order, |units|) && alloc.Length == |units| && rem != 0
    modifies alloc
    ensures r == CorrectionStep(units, order, old(alloc[..]), rem)
    ensures r.Ok? ==> alloc[..] == r.value
  {
    var a := alloc[..];
    var candidates, plant, v;
    if rem > 0 {
      candidates := BelowMax(units, order, a);
      if candidates == [] {
        CheapestExistsIffCandidates(units, order, a);
        return Err(CannotIncrease);
      }
      plant := candidates[FirstMin(Costs(units), candidates)];
      CheapestIsMinOfCandidates(units, order, a);
      v := a[plant] + 1;
    } else {
      candidates := AboveMin(units, order, a);
      if candidates == [] {
        DearestExistsIffCandidates(units, order, a);
        return Err(CannotDecrease);
      }
      plant := candidates[FirstMax(Costs(units), candidates)];
      DearestIsMaxOfCandidates(units, order, a);
      v := a[plant] - 1;
    }
    alloc[plant] := v;
    r := Ok(a[plant := v]);
  }

  /** Phase 3 as the program runs it: moves one unit at a time in the
      allocation array until no load remains, or stops with the error the
      program raises when no plant can take or give a unit. */
  method CorrectionPass(units: seq<Normalized>, order: seq<nat>, alloc: array<int>, remaining: int)
    returns (r: Result<seq<int>>)
    requires InRange(order, |units|) && alloc.Length == |units|
    modifies alloc
    ensures r == Correction(units, order, old(alloc[..]), remaining)
    ensures r.Ok? ==> r.value == alloc[..]
  {
    var rem := remaining;
    ghost var target := Correction(units, order, alloc[..], rem);
    while rem != 0
      invariant Correction(units, order, alloc[..], rem) == target
      decreases if rem < 0 then -rem else rem
    {
      ghost var before := alloc[..];
      var moved := MoveOneUnit(units, order, alloc, rem);
      if moved.Err? {
        return Err(moved.error);
      }
      CorrectionUnfold(units, order, before, rem);
      rem := if rem > 0 then rem - 1 else rem + 1;
    }
    r := Ok(alloc[..]);
  }

  /** The allocator as the program runs it: phase 1, the capacity check, the
      merit order, then phases 2 and 3 on an allocation array indexed by plant
      that starts at 0 for every plant, and finally the production plan. */
  method AllocatePower(load: real, f: Fuels, plants: seq<Plant>, includeCo2: bool)
    returns (r: Result<seq<Entry>>)
    requires PositiveEfficiencies(plants)
    requires UniqueNames(plants)
    ensures r == Allocation(load, f, plants, includeCo2)
  {
    var loadScaled := LoadScaled(load);
    var normalized, totalMaxScaled := NormalizePlants(plants, f, includeCo2);
    if normalized.Err? {
      return Err(normalized.error);
    }
    var units := normalized.value;
    if totalMaxScaled < loadScaled {
      return Err(InsufficientCapacity);
    }
    var order := SortByCost(Costs(units));
    var alloc := new int[|plants|](_ => 0);
    assert alloc[..] == Zeros(|units|);
    var remaining := GreedyPass(units, order, alloc, loadScaled);
    var corrected := CorrectionPass(units, order, alloc, remaining);
    if corrected.Err? {
      return Err(corrected.error);
    }
    r := Ok(Output(plants, corrected.value));
  }
}

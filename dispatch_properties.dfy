/** What the allocator guarantees: the invariants of its two passes, the
    outcome of a request (which errors can occur and when), and the shape of
    the production plan it returns. */
module DispatchProperties {
  import opened PowerPlants
  import opened Cost
  import opened MeritOrder
  import opened Dispatch

  /** Scaled bounds as phase 1 leaves them for valid plants. */
  predicate ValidUnits(units: seq<Normalized>)
  {
    forall j :: 0 <= j < |units| ==> 0 <= units[j].pminScaled <= units[j].pmaxScaled
  }

  /** A plant is shut down or runs within its bounds. */
  predicate OffOrWithin(u: Normalized, a: int)
  {
    a == 0 || u.pminScaled <= a <= u.pmaxScaled
  }

  /** No plant appears twice in the list. */
  predicate Distinct(s: seq<nat>)
  {
    forall i, i' :: 0 <= i < i' < |s| ==> s[i] != s[i']
  }

  /** Total power of a production plan in MW. */
  function TotalPower(out: seq<Entry>): real
  {
    if out == [] then 0.0 else TotalPower(out[..|out| - 1]) + out[|out| - 1].p
  }

  // ---------------------------------------------------------------- sums

  /** The starting allocation sums to 0. */
  lemma {:induction false} SumZeros(n: nat)
    ensures Sum(Zeros(n)) == 0
  {
    if n > 0 {
      assert Zeros(n)[..n - 1] == Zeros(n - 1);
      SumZeros(n - 1);
    }
  }

  /** No allocation that keeps every plant at or below its maximum adds up
      to more than the fleet's capacity: a load above the capacity cannot be
      met, which is what the capacity check rejects. */
  lemma {:induction false} WithinCapacity(units: seq<Normalized>, alloc: seq<int>)
    requires |alloc| == |units|
    requires forall j :: 0 <= j < |units| ==> alloc[j] <= units[j].pmaxScaled
    ensures Sum(alloc) <= TotalMax(units)
    decreases |units|
  {
    if units != [] {
      var n := |units| - 1;
      WithinCapacity(units[..n], alloc[..n]);
    }
  }

  /** While the allocation is below the fleet's capacity, some plant is
      below its maximum. */
  lemma {:induction false} SomeBelowMax(units: seq<Normalized>, alloc: seq<int>)
    requires |alloc| == |units| && Sum(alloc) < TotalMax(units)
    ensures exists j :: 0 <= j < |units| && alloc[j] < units[j].pmaxScaled
    decreases |units|
  {
    var n := |units| - 1;
    if alloc[n] >= units[n].pmaxScaled {
      SomeBelowMax(units[..n], alloc[..n]);
      var j :| 0 <= j < n && alloc[..n][j] < units[..n][j].pmaxScaled;
      assert alloc[j] < units[j].pmaxScaled;
    }
  }

  // ------------------------------------------------------- phase 1

  /** Phase 1 succeeds exactly when every plant normalizes, and then yields
      each plant's normalization in input order. */
  lemma {:induction false} NormalizeOutcome(plants: seq<Plant>, f: Fuels, includeCo2: bool)
    requires PositiveEfficiencies(plants)
    ensures Normalize(plants, f, includeCo2).Ok?
      <==> forall k :: 0 <= k < |plants| ==> NormalizePlant(plants[k], f, includeCo2).Ok?
    ensures Normalize(plants, f, includeCo2).Ok? ==>
      forall k :: 0 <= k < |plants| ==>
        Normalize(plants, f, includeCo2).value[k] == NormalizePlant(plants[k], f, includeCo2).value
    decreases |plants|
  {
    if plants != [] {
      var n := |plants| - 1;
      var init := plants[..n];
      NormalizeOutcome(init, f, includeCo2);
      NormalizeExtend(plants, n, f, includeCo2);
      assert plants[..n + 1] == plants;
      assert forall k :: 0 <= k < n ==> init[k] == plants[k];
    }
  }

  /** When phase 1 fails, it fails with the error of the first plant that
      does not normalize; k is that plant's position. */
  lemma {:induction false} NormalizeFirstFailure(plants: seq<Plant>, f: Fuels, includeCo2: bool)
    returns (k: nat)
    requires PositiveEfficiencies(plants) && Normalize(plants, f, includeCo2).Err?
    ensures k < |plants| && NormalizePlant(plants[k], f, includeCo2).Err?
    ensures Normalize(plants, f, includeCo2).error == NormalizePlant(plants[k], f, includeCo2).error
    ensures forall k' :: 0 <= k' < k ==> NormalizePlant(plants[k'], f, includeCo2).Ok?
    decreases |plants|
  {
    var n := |plants| - 1;
    var init := plants[..n];
    NormalizeExtend(plants, n, f, includeCo2);
    assert plants[..n + 1] == plants;
    assert forall k :: 0 <= k < n ==> init[k] == plants[k];
    if Normalize(init, f, includeCo2).Err? {
      k := NormalizeFirstFailure(init, f, includeCo2);
    } else {
      NormalizeOutcome(init, f, includeCo2);
      k := n;
    }
  }

  /** The scaled bounds of a valid plant: the minimum is not negative, and
      the maximum never exceeds the effective maximum. */
  lemma ScaledBounds(p: Plant, f: Fuels)
    requires ValidPlant(p) && ValidFuels(f)
    ensures 0 <= ScaledMin(p) && 0 <= ScaledMax(p, f)
    ensures ScaledMax(p, f) as real <= EffectiveMax(p, f) * Scale as real
  {
    var w := f.windPercentage / 100.0;
    ScaleMonotone(p.pmax, 0.0, w);
    assert 0.0 <= p.pmax * w;
  }

  /** Phase 1 on a valid request yields valid scaled bounds. */
  lemma NormalizeValid(load: real, f: Fuels, plants: seq<Plant>, includeCo2: bool)
    requires ValidRequest(load, f, plants)
    requires Normalize(plants, f, includeCo2).Ok?
    ensures ValidUnits(Normalize(plants, f, includeCo2).value)
  {
    NormalizeOutcome(plants, f, includeCo2);
    var units := Normalize(plants, f, includeCo2).value;
    forall j | 0 <= j < |units|
      ensures 0 <= units[j].pminScaled <= units[j].pmaxScaled
    {
      ScaledBounds(plants[j], f);
    }
  }

  // ------------------------------------------------------- phase 2

  /** The merit-order pass from position k keeps the remaining load
      non-negative, conserves allocation plus remaining load, and leaves each
      plant shut down or within its bounds. */
  lemma {:induction false} GreedyFromKeeps(units: seq<Normalized>, order: seq<nat>, k: nat, alloc: seq<int>, rem: int)
    requires ValidUnits(units) && InRange(order, |units|) && Distinct(order)
    requires k <= |order| && |alloc| == |units| && 0 <= rem
    requires forall i :: k <= i < |order| ==> alloc[order[i]] == 0
    requires forall j :: 0 <= j < |units| ==> OffOrWithin(units[j], alloc[j])
    ensures 0 <= GreedyFrom(units, order, k, alloc, rem).1
    ensures Sum(GreedyFrom(units, order, k, alloc, rem).0) + GreedyFrom(units, order, k, alloc, rem).1
      == Sum(alloc) + rem
    ensures forall j :: 0 <= j < |units| ==> OffOrWithin(units[j], GreedyFrom(units, order, k, alloc, rem).0[j])
    decreases |order| - k
  {
    if k < |order| {
      var j := order[k];
      var next := GreedyStep(units[j], alloc[j], rem);
      var after := alloc[j := next.0];
      SumUpdate(alloc, j, next.0);
      assert Sum(after) + next.1 == Sum(alloc) + rem;
      forall i | k + 1 <= i < |order|
        ensures after[order[i]] == 0
      {
        assert order[i] != j;
      }
      GreedyFromKeeps(units, order, k + 1, after, next.1);
    }
  }

  /** After the merit-order pass the remaining load is non-negative,
      allocation plus remaining load is the load, and every plant is shut
      down or within its bounds. */
  lemma GreedyOutcome(units: seq<Normalized>, order: seq<nat>, loadScaled: int)
    requires ValidUnits(units) && IsMeritOrder(Costs(units), order) && 0 <= loadScaled
    ensures 0 <= Greedy(units, order, loadScaled).1
    ensures Sum(Greedy(units, order, loadScaled).0) + Greedy(units, order, loadScaled).1 == loadScaled
    ensures forall j :: 0 <= j < |units| ==> OffOrWithin(units[j], Greedy(units, order, loadScaled).0[j])
  {
    forall i, i' | 0 <= i < i' < |order|
      ensures order[i] != order[i']
    {
      SortedDistinct(Costs(units), order, i, i');
    }
    SumZeros(|units|);
    GreedyFromKeeps(units, order, 0, Zeros(|units|), loadScaled);
  }

  // ------------------------------------------------------- phase 3

  /** The candidates for a raise are exactly the plants of the merit order
      below their maximum. */
  lemma {:induction false} BelowMaxMembers(units: seq<Normalized>, order: seq<nat>, alloc: seq<int>, j: nat)
    requires InRange(order, |units|) && |alloc| == |units|
    ensures j in BelowMax(units, order, alloc) <==> j in order && j < |units| && alloc[j] < units[j].pmaxScaled
    decreases |order|
  {
    if order != [] {
      var n := |order| - 1;
      BelowMaxMembers(units, order[..n], alloc, j);
      assert order == order[..n] + [order[n]];
    }
  }

  /** The candidates for a cut are exactly the plants of the merit order
      above their minimum. */
  lemma {:induction false} AboveMinMembers(units: seq<Normalized>, order: seq<nat>, alloc: seq<int>, j: nat)
    requires InRange(order, |units|) && |alloc| == |units|
    ensures j in AboveMin(units, order, alloc) <==> j in order && j < |units| && alloc[j] > units[j].pminScaled
    decreases |order|
  {
    if order != [] {
      var n := |order| - 1;
      AboveMinMembers(units, order[..n], alloc, j);
      assert order == order[..n] + [order[n]];
    }
  }

  /** The plant a raise goes to is, among the plants of the order below their
      maximum, one of least cost, and the first such in the order; there is
      none exactly when every plant of the order is at its maximum.  k is its
      position in the order. */
  lemma {:induction false} CheapestIsFirstMinimal(units: seq<Normalized>, order: seq<nat>, alloc: seq<int>)
    returns (k: int)
    requires InRange(order, |units|) && |alloc| == |units|
    ensures var p := CheapestBelowMax(units, order, alloc);
      && (p < 0 <==> forall i :: 0 <= i < |order| ==> alloc[order[i]] >= units[order[i]].pmaxScaled)
      && (0 <= p ==> 0 <= k < |order| && order[k] == p)
      && (0 <= p ==> forall i :: 0 <= i < |order| && alloc[order[i]] < units[order[i]].pmaxScaled ==>
            units[p].cost <= units[order[i]].cost)
      && (0 <= p ==> forall i :: 0 <= i < k && alloc[order[i]] < units[order[i]].pmaxScaled ==>
            units[p].cost < units[order[i]].cost)
    decreases |order|
  {
    if order == [] {
      k := -1;
    } else {
      var n := |order| - 1;
      var init := order[..n];
      var k0 := CheapestIsFirstMinimal(units, init, alloc);
      assert forall i :: 0 <= i < n ==> order[i] == init[i];
      var p0 := CheapestBelowMax(units, init, alloc);
      var x := order[n];
      if alloc[x] < units[x].pmaxScaled && (p0 < 0 || units[x].cost < units[p0].cost) {
        k := n;
      } else {
        k := k0;
      }
    }
  }

  /** While some plant of the order is below its maximum, a raise finds a
      plant. */
  lemma CheapestExists(units: seq<Normalized>, order: seq<nat>, alloc: seq<int>, j: nat)
    requires InRange(order, |units|) && |alloc| == |units|
    requires j < |units| && j in order && alloc[j] < units[j].pmaxScaled
    ensures 0 <= CheapestBelowMax(units, order, alloc)
  {
    var _ := CheapestIsFirstMinimal(units, order, alloc);
    var i :| 0 <= i < |order| && order[i] == j;
  }

  /** A unit of remaining load goes to the plant below its maximum that is
      cheapest, the one earliest in the input among equally cheap ones. */
  lemma IncreaseGoesToCheapest(units: seq<Normalized>, order: seq<nat>, alloc: seq<int>, rem: int, j: nat)
    requires InRange(order, |units|) && Sorted(Costs(units), order) && |alloc| == |units| && 0 < rem
    requires j < |units| && j in order && alloc[j] < units[j].pmaxScaled
    requires forall i :: 0 <= i < |units| && i in order && alloc[i] < units[i].pmaxScaled && i != j ==>
      Before(Costs(units), j, i)
    ensures CorrectionStep(units, order, alloc, rem) == Ok(alloc[j := alloc[j] + 1])
  {
    var keys := Costs(units);
    var k := CheapestIsFirstMinimal(units, order, alloc);
    var kj :| 0 <= kj < |order| && order[kj] == j;
    var p := CheapestBelowMax(units, order, alloc);
    assert p == j;
  }

  /** While some plant is below its maximum, a move for remaining load
      succeeds and raises one such plant by one unit. */
  lemma RaiseChoice(units: seq<Normalized>, order: seq<nat>, alloc: seq<int>, rem: int, j: nat)
    returns (i: nat)
    requires InRange(order, |units|) && |alloc| == |units| && 0 < rem
    requires j < |units| && j in order && alloc[j] < units[j].pmaxScaled
    ensures i < |units| && alloc[i] < units[i].pmaxScaled
    ensures CorrectionStep(units, order, alloc, rem) == Ok(alloc[i := alloc[i] + 1])
  {
    CheapestExists(units, order, alloc, j);
    i := CheapestBelowMax(units, order, alloc);
  }

  /** The same move, as the step phase 3 takes from there. */
  lemma RaiseStep(units: seq<Normalized>, order: seq<nat>, alloc: seq<int>, rem: int, j: nat)
    returns (i: nat)
    requires InRange(order, |units|) && |alloc| == |units| && 0 < rem
    requires j < |units| && j in order && alloc[j] < units[j].pmaxScaled
    ensures i < |units| && alloc[i] < units[i].pmaxScaled
    ensures Correction(units, order, alloc, rem) == Correction(units, order, alloc[i := alloc[i] + 1], rem - 1)
  {
    i := RaiseChoice(units, order, alloc, rem, j);
    CorrectionUnfold(units, order, alloc, rem);
  }

  /** A raising move keeps every plant at or below its maximum and adds one
      unit to the allocation. */
  lemma RaiseWithinMax(units: seq<Normalized>, order: seq<nat>, alloc: seq<int>, rem: int, j: nat)
    returns (next: seq<int>)
    requires InRange(order, |units|) && |alloc| == |units| && 0 < rem
    requires j < |units| && j in order && alloc[j] < units[j].pmaxScaled
    requires forall k :: 0 <= k < |units| ==> alloc[k] <= units[k].pmaxScaled
    ensures |next| == |units| && Sum(next) == Sum(alloc) + 1
    ensures forall k :: 0 <= k < |units| ==> alloc[k] <= next[k] <= units[k].pmaxScaled
    ensures Correction(units, order, alloc, rem) == Correction(units, order, next, rem - 1)
  {
    var i := RaiseStep(units, order, alloc, rem, j);
    next := alloc[i := alloc[i] + 1];
    SumUpdate(alloc, i, alloc[i] + 1);
  }

  /** With load remaining, no plant above its maximum and enough capacity
      left, phase 3 succeeds: it meets the load exactly, only raises plants
      and keeps each plant at or below its maximum. */
  lemma {:induction false} CorrectionMeetsLoad(units: seq<Normalized>, order: seq<nat>, alloc: seq<int>, rem: int)
    requires InRange(order, |units|) && |alloc| == |units|
    requires forall j: nat :: j < |units| ==> j in order
    requires forall j :: 0 <= j < |units| ==> alloc[j] <= units[j].pmaxScaled
    requires 0 <= rem && Sum(alloc) + rem <= TotalMax(units)
    ensures Correction(units, order, alloc, rem).Ok?
    ensures Sum(Correction(units, order, alloc, rem).value) == Sum(alloc) + rem
    ensures forall j :: 0 <= j < |units| ==>
      alloc[j] <= Correction(units, order, alloc, rem).value[j] <= units[j].pmaxScaled
    decreases rem
  {
    if rem > 0 {
      SomeBelowMax(units, alloc);
      var j :| 0 <= j < |units| && alloc[j] < units[j].pmaxScaled;
      var next := RaiseWithinMax(units, order, alloc, rem, j);
      CorrectionMeetsLoad(units, order, next, rem - 1);
    }
  }

  /** Phase 3 on a single plant below its maximum while every other plant is
      at its maximum: all remaining load goes to that plant. */
  lemma {:induction false} CorrectionFillsOnlyCandidate(units: seq<Normalized>, order: seq<nat>, alloc: seq<int>, rem: int, j: nat)
    requires InRange(order, |units|) && |alloc| == |units| && j < |units| && j in order
    requires forall i :: 0 <= i < |units| && i != j ==> alloc[i] == units[i].pmaxScaled
    requires 0 <= rem && alloc[j] + rem <= units[j].pmaxScaled
    ensures Correction(units, order, alloc, rem) == Ok(alloc[j := alloc[j] + rem])
    decreases rem
  {
    if rem == 0 {
      assert alloc[j := alloc[j]] == alloc;
    } else {
      var next := alloc[j := alloc[j] + 1];
      assert next[j := next[j] + (rem - 1)] == alloc[j := alloc[j] + rem];
      var i := RaiseStep(units, order, alloc, rem, j);
      assert i == j;
      CorrectionFillsOnlyCandidate(units, order, next, rem - 1, j);
    }
  }

  // ------------------------------------------------------- phases 2 and 3

  /** After phase 1, the plan succeeds exactly when the load fits the
      capacity; neither "cannot increase" nor "cannot decrease" can occur.
      A plan meets the load exactly and keeps every plant within 0 and its
      maximum. */
  lemma PlanOutcome(units: seq<Normalized>, loadScaled: int)
    requires ValidUnits(units) && 0 <= loadScaled
    ensures Plan(units, loadScaled).Ok? <==> loadScaled <= TotalMax(units)
    ensures Plan(units, loadScaled).Err? ==> Plan(units, loadScaled).error == InsufficientCapacity
    ensures Plan(units, loadScaled).Ok? ==>
      && Sum(Plan(units, loadScaled).value) == loadScaled
      && forall j :: 0 <= j < |units| ==> 0 <= Plan(units, loadScaled).value[j] <= units[j].pmaxScaled
  {
    if loadScaled <= TotalMax(units) {
      var order := SortByCost(Costs(units));
      var greedy := Greedy(units, order, loadScaled);
      GreedyOutcome(units, order, loadScaled);
      CorrectionMeetsLoad(units, order, greedy.0, greedy.1);
    }
  }

  // ------------------------------------------------------- the request

  /** The plan's outputs in MW add up to the scaled allocation divided by
      the scale. */
  lemma {:induction false} OutputTotal(plants: seq<Plant>, alloc: seq<int>)
    requires |alloc| == |plants|
    ensures TotalPower(Output(plants, alloc)) * Scale as real == Sum(alloc) as real
    decreases |plants|
  {
    if plants != [] {
      var n := |plants| - 1;
      assert Output(plants, alloc)[..n] == Output(plants[..n], alloc[..n]);
      OutputTotal(plants[..n], alloc[..n]);
    }
  }

  /** A valid request fails exactly when phase 1 rejects a plant (with that
      plant's error) or the load exceeds the capacity. */
  lemma DispatchOutcome(load: real, f: Fuels, plants: seq<Plant>, includeCo2: bool)
    requires ValidRequest(load, f, plants)
    ensures Normalize(plants, f, includeCo2).Err? ==>
      Allocation(load, f, plants, includeCo2) == Err(Normalize(plants, f, includeCo2).error)
    ensures Normalize(plants, f, includeCo2).Ok? ==>
      (Allocation(load, f, plants, includeCo2).Ok? <==>
       LoadScaled(load) <= TotalMax(Normalize(plants, f, includeCo2).value))
    ensures Normalize(plants, f, includeCo2).Ok? && Allocation(load, f, plants, includeCo2).Err? ==>
      Allocation(load, f, plants, includeCo2).error == InsufficientCapacity
  {
    if Normalize(plants, f, includeCo2).Ok? {
      NormalizeValid(load, f, plants, includeCo2);
      PlanOutcome(Normalize(plants, f, includeCo2).value, LoadScaled(load));
    }
  }

  /** A production plan names every plant once, in input order; its outputs
      add up to the load truncated to 0.1 MW, and each lies between 0 and the
      plant's effective maximum. */
  lemma DispatchOutput(load: real, f: Fuels, plants: seq<Plant>, includeCo2: bool)
    requires ValidRequest(load, f, plants)
    requires Allocation(load, f, plants, includeCo2).Ok?
    ensures |Allocation(load, f, plants, includeCo2).value| == |plants|
    ensures forall k :: 0 <= k < |plants| ==>
      && Allocation(load, f, plants, includeCo2).value[k].name == plants[k].name
      && 0.0 <= Allocation(load, f, plants, includeCo2).value[k].p <= EffectiveMax(plants[k], f)
    ensures TotalPower(Allocation(load, f, plants, includeCo2).value) * Scale as real == LoadScaled(load) as real
  {
    var units := Normalize(plants, f, includeCo2).value;
    var loadScaled := LoadScaled(load);
    NormalizeValid(load, f, plants, includeCo2);
    NormalizeOutcome(plants, f, includeCo2);
    PlanOutcome(units, loadScaled);
    var alloc := Plan(units, loadScaled).value;
    var out := Output(plants, alloc);
    assert Allocation(load, f, plants, includeCo2) == Ok(out);
    OutputTotal(plants, alloc);
    forall k | 0 <= k < |plants|
      ensures 0.0 <= out[k].p <= EffectiveMax(plants[k], f)
    {
      ScaledBounds(plants[k], f);
      assert units[k].pmaxScaled == ScaledMax(plants[k], f);
      assert out[k].p * Scale as real == alloc[k] as real;
    }
  }

  // ------------------------------------------------------- an example

  /** A wind park of 100 MW at 50 % wind and a gas plant of minimum 20 MW,
      maximum 100 MW and efficiency 0.5. */
  const ExampleFuels: Fuels := Fuels(13.4, 50.8, 20.0, 50.0)
  const ExampleWind: Plant := Plant("windpark", WindTurbine, 1.0, 0.0, 100.0)
  const ExampleGas: Plant := Plant("gasplant", GasFired, 0.5, 20.0, 100.0)

  /** Phase 1 on the example: wind costs nothing and reaches 50 MW; gas
      costs 32.8 euro per MWh and runs between 20 and 100 MW. */
  lemma ExampleNormalize() returns (units: seq<Normalized>)
    ensures units == [Normalized(0.0, 0, 500), Normalized(13.4 / 0.5 + 0.3 * 20.0, 200, 1000)]
    ensures Normalize([ExampleWind, ExampleGas], ExampleFuels, true) == Ok(units)
  {
    var f := ExampleFuels;
    KindsDistinct();
    ThermalCost(ExampleGas, f, true);
    units := [Normalized(0.0, 0, 500), Normalized(13.4 / 0.5 + 0.3 * 20.0, 200, 1000)];
    assert NormalizePlant(ExampleWind, f, true) == Ok(units[0]);
    assert NormalizePlant(ExampleGas, f, true) == Ok(units[1]);
    var plants := [ExampleWind, ExampleGas];
    assert plants[..0] == [] && plants[..2] == plants && plants[0] == ExampleWind && plants[1] == ExampleGas;
    assert Normalize([], f, true) == Ok([]);
    NormalizeExtend(plants, 0, f, true);
    assert Normalize(plants[..1], f, true) == Ok([] + [units[0]]);
    assert [] + [units[0]] == [units[0]] && [units[0]] + [units[1]] == units;
    NormalizeExtend(plants, 1, f, true);
  }

  /** Phase 2 on the example with a load of 60 MW: wind takes 50 MW and the
      remaining 10 MW is below the gas plant's minimum, so gas stays off. */
  lemma ExampleGreedy(units: seq<Normalized>)
    requires units == [Normalized(0.0, 0, 500), Normalized(13.4 / 0.5 + 0.3 * 20.0, 200, 1000)]
    ensures Greedy(units, [0, 1], 600) == ([500, 0], 100)
  {
    assert GreedyStep(units[1], 0, 100) == (0, 100);
    assert [500, 0][1 := 0] == [500, 0];
    assert GreedyFrom(units, [0, 1], 2, [500, 0], 100) == ([500, 0], 100);
    assert GreedyFrom(units, [0, 1], 1, [500, 0], 100) == ([500, 0], 100);
    assert GreedyStep(units[0], 0, 600) == (500, 100);
    assert [0, 0][0 := 500] == [500, 0];
    assert Zeros(2) == [0, 0];
  }

  /** Phases 2 and 3 on the example with a load of 60 MW: phase 3 raises the
      gas plant one unit at a time to 10 MW, below its minimum. */
  lemma ExamplePlan(units: seq<Normalized>)
    requires units == [Normalized(0.0, 0, 500), Normalized(13.4 / 0.5 + 0.3 * 20.0, 200, 1000)]
    ensures Plan(units, 600) == Ok([500, 100])
  {
    var keys := Costs(units);
    MeritOrderUnique(keys, [0, 1]);
    assert units[..1][..0] == [] && TotalMax(units[..1]) == 500;
    assert TotalMax(units) == 1500;
    ExampleGreedy(units);
    CorrectionFillsOnlyCandidate(units, [0, 1], [500, 0], 100, 1);
    assert [500, 0][1 := 0 + 100] == [500, 100];
  }

  /** Phase 3 can raise a plant that the merit-order pass shut down to an
      output below its minimum: with wind at 50 % of 100 MW and a gas plant of
      minimum 20 MW, a load of 60 MW gives wind 50 MW and gas 10 MW. */
  lemma GasBelowMinimumExample()
    ensures Allocation(60.0, ExampleFuels, [ExampleWind, ExampleGas], true)
      == Ok([Entry("windpark", 50.0), Entry("gasplant", 10.0)])
    ensures 0.0 < Allocation(60.0, ExampleFuels, [ExampleWind, ExampleGas], true).value[1].p < ExampleGas.pmin
  {
    var plants := [ExampleWind, ExampleGas];
    var units := ExampleNormalize();
    ExamplePlan(units);
    assert LoadScaled(60.0) == 600;
    assert Output(plants, [500, 100]) == [Entry("windpark", 50.0), Entry("gasplant", 10.0)];
  }
}

/** The marginal cost of one MWh from a plant, by plant type. */
module Cost {
  import opened PowerPlants

  /** Tons of CO2 a gas-fired plant emits per MWh it produces. */
  const Co2TonsPerMwh: real := 0.3

  /** Cost in euro of one MWh from p under fuel prices f; an unknown plant
      type is an error that names the type. */
  function MarginalCost(p: Plant, f: Fuels, includeCo2: bool): (r: Result<real>)
    requires 0.0 < p.efficiency
    ensures r.Ok? <==> KnownKind(p.kind)
    ensures r.Err? ==> r.error == UnknownPlantType(p.kind)
    ensures p.kind == WindTurbine ==> r == Ok(0.0)
    ensures r.Ok? && ValidFuels(f) ==> 0.0 <= r.value
  {
    if p.kind == WindTurbine then
      Ok(0.0)
    else if p.kind == GasFired then
      var fuelCost := (1.0 / p.efficiency) * f.gasEuroPerMwh;
      if includeCo2 then
        var co2Cost := Co2TonsPerMwh * f.co2EuroPerTon;
        Ok(fuelCost + co2Cost)
      else
        Ok(fuelCost)
    else if p.kind == Turbojet then
      Ok((1.0 / p.efficiency) * f.kerosineEuroPerMwh)
    else
      Err(UnknownPlantType(p.kind))
  }

  /** The cost of a thermal plant is its fuel price divided by its
      efficiency; a gas-fired plant adds 0.3 times the CO2 price when CO2 is
      counted. */
  lemma ThermalCost(p: Plant, f: Fuels, includeCo2: bool)
    requires 0.0 < p.efficiency
    ensures p.kind == GasFired ==>
      && MarginalCost(p, f, includeCo2).Ok?
      && MarginalCost(p, f, includeCo2).value
        == f.gasEuroPerMwh / p.efficiency + (if includeCo2 then Co2TonsPerMwh * f.co2EuroPerTon else 0.0)
    ensures p.kind == Turbojet ==>
      && MarginalCost(p, f, includeCo2).Ok?
      && MarginalCost(p, f, includeCo2).value == f.kerosineEuroPerMwh / p.efficiency
  {
    KindsDistinct();
    if p.kind == GasFired {
      var cost := MarginalCost(p, f, includeCo2).value;
      DivideAsMultiply(f.gasEuroPerMwh, p.efficiency);
      assert cost == (1.0 / p.efficiency) * f.gasEuroPerMwh
        + (if includeCo2 then Co2TonsPerMwh * f.co2EuroPerTon else 0.0);
    } else if p.kind == Turbojet {
      var cost := MarginalCost(p, f, includeCo2).value;
      DivideAsMultiply(f.kerosineEuroPerMwh, p.efficiency);
      assert cost == (1.0 / p.efficiency) * f.kerosineEuroPerMwh;
    }
  }

  /** The CO2 switch adds exactly 0.3 times the CO2 price to a gas-fired
      plant and changes nothing for the other types. */
  lemma Co2Surcharge(p: Plant, f: Fuels)
    requires 0.0 < p.efficiency && KnownKind(p.kind)
    ensures MarginalCost(p, f, true).value - MarginalCost(p, f, false).value
      == if p.kind == GasFired then Co2TonsPerMwh * f.co2EuroPerTon else 0.0
  {
  }

  /** Raising any fuel or CO2 price never makes a plant cheaper. */
  lemma CostMonotoneInPrices(p: Plant, f: Fuels, g: Fuels, includeCo2: bool)
    requires 0.0 < p.efficiency && KnownKind(p.kind)
    requires f.gasEuroPerMwh <= g.gasEuroPerMwh
    requires f.kerosineEuroPerMwh <= g.kerosineEuroPerMwh
    requires f.co2EuroPerTon <= g.co2EuroPerTon
    ensures MarginalCost(p, f, includeCo2).value <= MarginalCost(p, g, includeCo2).value
  {
    KindsDistinct();
    if p.kind == GasFired {
      GasCostMonotone(p, f, g, includeCo2);
    } else if p.kind == Turbojet {
      TurbojetCostMonotone(p, f, g, includeCo2);
    }
  }

  lemma GasCostMonotone(p: Plant, f: Fuels, g: Fuels, includeCo2: bool)
    requires 0.0 < p.efficiency && p.kind == GasFired
    requires f.gasEuroPerMwh <= g.gasEuroPerMwh && f.co2EuroPerTon <= g.co2EuroPerTon
    ensures MarginalCost(p, f, includeCo2).value <= MarginalCost(p, g, includeCo2).value
  {
    KindsDistinct();
    var c := if includeCo2 then Co2TonsPerMwh else 0.0;
    assert MarginalCost(p, f, includeCo2).value == (1.0 / p.efficiency) * f.gasEuroPerMwh + c * f.co2EuroPerTon;
    assert MarginalCost(p, g, includeCo2).value == (1.0 / p.efficiency) * g.gasEuroPerMwh + c * g.co2EuroPerTon;
    WeightedSumMonotone(1.0 / p.efficiency, c, f.gasEuroPerMwh, g.gasEuroPerMwh, f.co2EuroPerTon, g.co2EuroPerTon);
  }

  lemma TurbojetCostMonotone(p: Plant, f: Fuels, g: Fuels, includeCo2: bool)
    requires 0.0 < p.efficiency && p.kind == Turbojet
    requires f.kerosineEuroPerMwh <= g.kerosineEuroPerMwh
    ensures MarginalCost(p, f, includeCo2).value <= MarginalCost(p, g, includeCo2).value
  {
    KindsDistinct();
    assert MarginalCost(p, f, includeCo2).value == (1.0 / p.efficiency) * f.kerosineEuroPerMwh + 0.0 * 0.0;
    assert MarginalCost(p, g, includeCo2).value == (1.0 / p.efficiency) * g.kerosineEuroPerMwh + 0.0 * 0.0;
    WeightedSumMonotone(1.0 / p.efficiency, 0.0, f.kerosineEuroPerMwh, g.kerosineEuroPerMwh, 0.0, 0.0);
  }

  /** Of two plants that differ only in efficiency, the more efficient one is
      never the more expensive. */
  lemma CostAntitoneInEfficiency(p: Plant, e: real, f: Fuels, includeCo2: bool)
    requires 0.0 < p.efficiency <= e && KnownKind(p.kind) && ValidFuels(f)
    ensures MarginalCost(p.(efficiency := e), f, includeCo2).value <= MarginalCost(p, f, includeCo2).value
  {
    var q := p.(efficiency := e);
    var better := MarginalCost(q, f, includeCo2).value;
    var worse := MarginalCost(p, f, includeCo2).value;
    InverseAntitone(p.efficiency, e);
    if p.kind == GasFired {
      ScaleMonotone(f.gasEuroPerMwh, 1.0 / e, 1.0 / p.efficiency);
      var co2 := if includeCo2 then Co2TonsPerMwh * f.co2EuroPerTon else 0.0;
      assert better == (1.0 / e) * f.gasEuroPerMwh + co2;
      assert worse == (1.0 / p.efficiency) * f.gasEuroPerMwh + co2;
    } else if p.kind == Turbojet {
      ScaleMonotone(f.kerosineEuroPerMwh, 1.0 / e, 1.0 / p.efficiency);
      assert better == (1.0 / e) * f.kerosineEuroPerMwh;
      assert worse == (1.0 / p.efficiency) * f.kerosineEuroPerMwh;
    }
  }

  lemma WeightedSumMonotone(a: real, b: real, x: real, x': real, y: real, y': real)
    requires 0.0 <= a && 0.0 <= b && x <= x' && y <= y'
    ensures a * x + b * y <= a * x' + b * y'
  {
    ScaleMonotone(a, x, x');
    ScaleMonotone(b, y, y');
  }

  lemma DivideAsMultiply(x: real, d: real)
    requires d != 0.0
    ensures (1.0 / d) * x == x / d
  {
  }

  lemma ScaleMonotone(c: real, x: real, y: real)
    requires 0.0 <= c && x <= y
    ensures c * x <= c * y && x * c <= y * c
  {
    assert c * y - c * x == c * (y - x);
  }

  lemma InverseAntitone(d: real, e: real)
    requires 0.0 < d <= e
    ensures 0.0 < 1.0 / e <= 1.0 / d
  {
    assert (1.0 / e) * e == 1.0;
    assert (1.0 / d) * d == 1.0;
    if 1.0 / d < 1.0 / e {
      ScaleMonotone(d, 1.0 / d, 1.0 / e);
      ScaleMonotone(1.0 / e, d, e);
      assert false;
    }
  }
}

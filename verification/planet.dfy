/**
 * `generatePlanetData` of planet-logic.ts: the physical description of a
 * planet, drawn from a stream of random numbers.
 *
 * The `rng` closure is modelled by the sequence `rs` of the numbers it
 * returns, read from a cursor: `rs[k]` is the result of the next call. Any
 * sequence of numbers in [0, 1) is allowed, so the model covers every
 * `rng`, and `SeededStream.Draws(InitialSeed(seed), n)` is the one the
 * seeded stream supplies. Each step is a function of the numbers and the
 * cursor (`TemperaturesAt`, `SurfaceAt`, ..., and `PlanetAt` for the whole),
 * which also gives the cursor after its draws; the methods that follow the
 * source statement by statement are proved equal to them.
 */
module Planet {
  import opened Color
  import opened Catalog
  import opened Options

  /** The local `liquidState`: "none", "liquid", "boiling" or "sediment". */
  datatype LiquidState = StateNone | StateLiquid | StateBoiling | StateSediment

  datatype PlanetData = PlanetData(
    baseTemp: int, maxT: int, minT: int,
    solid: Solid, liquid: Liquid,
    latBoil: real, latFreeze: real,
    oceanName: string, solidName: string,
    atmosName: string, atmosDensity: real,
    cloudHex: string,
    hasLife: bool, lifeType: string, bioColor: Option<string>, bioMinT: int, bioMaxT: int,
    tilt: real, rings: bool, baseFreq: real, suggestedWater: int, roughness: real)

  /** The life fields of the result. */
  datatype Life = Life(hasLife: bool, lifeType: string, bioColor: Option<string>, bioMinT: int, bioMaxT: int)

  /** The most numbers one call of `generatePlanetData` draws. */
  const MaxPlanetDraws: nat := 16

  /** Numbers an `rng` may return. */
  predicate UnitDraws(rs: seq<real>) {
    forall i :: 0 <= i < |rs| ==> 0.0 <= rs[i] < 1.0
  }

  /** `CtoK`. */
  function Kelvin(c: real): real { c + 273.15 }

  /** `Math.floor(r * n)`: the index a draw picks out of `n` entries. */
  function PickIndex(r: real, n: nat): (i: nat)
    requires 0.0 <= r < 1.0 && n > 0
    ensures i < n
  {
    MulLeft(r, 1.0, n as real);
    (r * n as real).Floor
  }

  /** `x || d` on a number: zero is falsy. */
  function OrDefault(x: real, d: real): real { if x == 0.0 then d else x }

  // ---------------------------------------------------------------------------
  // Temperature

  /** The temperatures of a planet, and the call that follows their draws. */
  datatype Temperatures = Temperatures(baseTemp: int, maxT: int, minT: int, next: nat)

  /**
   * The temperatures drawn from call `k` on, in order: the base, the jump
   * gate, the jump itself (only when the gate passes), the cold gate, the
   * equator and pole offsets.
   */
  function TemperaturesAt(rs: seq<real>, k: nat): (t: Temperatures)
    requires k + 6 <= |rs| && UnitDraws(rs)
    ensures t.next == k + (if rs[k + 1] > 0.92 then 6 else 5)
    ensures -300 <= t.baseTemp <= 4798
    ensures rs[k + 1] <= 0.92 && rs[k + 2] >= 0.12 ==> -150 <= t.baseTemp <= 299
    ensures rs[k + 1] <= 0.92 && rs[k + 2] < 0.12 ==> -300 <= t.baseTemp <= 149
    ensures t.baseTemp + 20 <= t.maxT <= t.baseTemp + 69
    ensures t.baseTemp - 119 <= t.minT <= t.baseTemp - 40
    ensures t.baseTemp == (rs[k] * 450.0 - 150.0).Floor + (if rs[k + 1] > 0.92 then (rs[k + 2] * 4500.0).Floor else 0)
                          - (if rs[t.next - 3] < 0.12 then 150 else 0)
    ensures t.maxT - t.baseTemp == (rs[t.next - 2] * 50.0 + 20.0).Floor
    ensures t.baseTemp - t.minT == (rs[t.next - 1] * 80.0 + 40.0).Floor
  {
    var jump := rs[k + 1] > 0.92;
    var cold := if jump then k + 3 else k + 2;
    var base := (rs[k] * 450.0 - 150.0).Floor + (if jump then (rs[k + 2] * 4500.0).Floor else 0)
                - (if rs[cold] < 0.12 then 150 else 0);
    Temperatures(base, base + (rs[cold + 1] * 50.0 + 20.0).Floor, base - (rs[cold + 2] * 80.0 + 40.0).Floor, cold + 3)
  }

  /** The temperature step of `generatePlanetData`, drawing from call `k` on. */
  method DrawTemperatures(rs: seq<real>, k: nat) returns (baseTemp: int, maxT: int, minT: int, k': nat)
    requires k + 6 <= |rs| && UnitDraws(rs)
    ensures Temperatures(baseTemp, maxT, minT, k') == TemperaturesAt(rs, k)
  {
    baseTemp := (rs[k] * 450.0 - 150.0).Floor;
    var i := k + 1;
    var jumpGate := rs[i];
    i := i + 1;
    if jumpGate > 0.92 {
      baseTemp := baseTemp + (rs[i] * 4500.0).Floor;
      i := i + 1;
    }
    var coldGate := rs[i];
    i := i + 1;
    if coldGate < 0.12 {
      baseTemp := baseTemp - 150;
    }
    var equatorOffset := (rs[i] * 50.0 + 20.0).Floor;
    var poleOffset := (rs[i + 1] * 80.0 + 40.0).Floor;
    maxT := baseTemp + equatorOffset;
    minT := baseTemp - poleOffset;
    k' := i + 2;
  }

  // ---------------------------------------------------------------------------
  // Surface

  /** The melting rule: the base temperature is above three times the melting point, in kelvin. */
  predicate Molten(baseTemp: int, melt: real) {
    Kelvin(baseTemp as real) > Kelvin(melt) * 3.0
  }

  /**
   * The solid the draw at call `k` picks out of those of `solids` the base
   * temperature allows, or the fallback solid when none is allowed.
   */
  function PickedSolid(rs: seq<real>, k: nat, baseTemp: int, solids: seq<Solid>): (c: Solid)
    requires k < |rs| && UnitDraws(rs) && SolidTableWellFormed(solids)
    ensures |FilterSolids(solids, baseTemp)| > 0 ==> c in solids && SolidAllowed(c, baseTemp)
    ensures |FilterSolids(solids, baseTemp)| == 0 ==> c == ScorchedCrust
    ensures var valid := FilterSolids(solids, baseTemp);
      |valid| > 0 ==> c == valid[PickIndex(rs[k], |valid|)]
    ensures IsHexColor(c.color) && 0.4 <= c.roughness <= 1.5
  {
    var valid := FilterSolids(solids, baseTemp);
    if |valid| > 0 then
      assert valid[PickIndex(rs[k], |valid|)] in valid;
      valid[PickIndex(rs[k], |valid|)]
    else
      CatalogWellFormed();
      ScorchedCrust
  }

  /** The crust: its solid, its displayed name, and the call that follows its draw. */
  datatype Surface = Surface(solid: Solid, solidName: string, next: nat)

  /**
   * The crust drawn at call `k`: the picked solid, renamed "Molten ..." and
   * recoloured when it is molten. With no solid allowed nothing is drawn.
   */
  function SurfaceAt(rs: seq<real>, k: nat, baseTemp: int, solids: seq<Solid>): (s: Surface)
    requires k < |rs| && UnitDraws(rs) && SolidTableWellFormed(solids)
    ensures s.next == k + (if |FilterSolids(solids, baseTemp)| > 0 then 1 else 0)
    ensures SolidRules(baseTemp, s.solid, s.solidName, solids)
    ensures s.solid == PickedSolid(rs, k, baseTemp, solids).(color := s.solid.color)
    ensures !Molten(baseTemp, s.solid.melt) ==> s.solid == PickedSolid(rs, k, baseTemp, solids)
    ensures Molten(baseTemp, s.solid.melt) ==> s.solid.color == ArtColor(PickedSolid(rs, k, baseTemp, solids).color, 25.0, 15.0, 5.0)
  {
    var c := PickedSolid(rs, k, baseTemp, solids);
    var next := if |FilterSolids(solids, baseTemp)| > 0 then k + 1 else k;
    if Molten(baseTemp, c.melt) then
      var molten := c.(color := ArtColor(c.color, 25.0, 15.0, 5.0));
      assert (c in solids || c == ScorchedCrust) && molten == c.(color := molten.color);
      Surface(molten, "Molten " + c.name, next)
    else
      assert (c in solids || c == ScorchedCrust) && c == c.(color := c.color);
      Surface(c, c.name, next)
  }

  /** The solid step of `generatePlanetData`, drawing at call `k`. */
  method PickSolid(rs: seq<real>, k: nat, baseTemp: int, solids: seq<Solid>)
    returns (solid: Solid, solidName: string, k': nat)
    requires k < |rs| && UnitDraws(rs) && SolidTableWellFormed(solids)
    ensures Surface(solid, solidName, k') == SurfaceAt(rs, k, baseTemp, solids)
  {
    var valid := FilterSolids(solids, baseTemp);
    var picked;
    if |valid| > 0 {
      picked := valid[PickIndex(rs[k], |valid|)];
      k' := k + 1;
    } else {
      picked := ScorchedCrust;
      k' := k;
    }
    assert picked == PickedSolid(rs, k, baseTemp, solids);
    solid, solidName := picked, picked.name;
    if Molten(baseTemp, picked.melt) {
      solidName := "Molten " + picked.name;
      solid := picked.(color := ArtColor(picked.color, 25.0, 15.0, 5.0));
    }
  }

  /** The liquid the draw at call `k` picks out of those of `liquids` above their freezing point. */
  function PickedLiquid(rs: seq<real>, k: nat, baseTemp: int, liquids: seq<Liquid>): (c: Liquid)
    requires k < |rs| && UnitDraws(rs) && LiquidTableWellFormed(liquids)
    requires |FilterLiquids(liquids, baseTemp)| > 0
    ensures c in liquids && LiquidAllowed(c, baseTemp)
    ensures var valid := FilterLiquids(liquids, baseTemp); c == valid[PickIndex(rs[k], |valid|)]
    ensures IsHexColor(c.color) && IsHexColor(c.cloud) && IsHexColor(c.frozenColor)
  {
    var valid := FilterLiquids(liquids, baseTemp);
    assert valid[PickIndex(rs[k], |valid|)] in valid;
    valid[PickIndex(rs[k], |valid|)]
  }

  /** The ocean: its liquid and state, its name, the cloud colour, the atmosphere contribution, and the next call. */
  datatype Ocean = Ocean(liquid: Liquid, state: LiquidState, oceanName: string, cloudColor: string,
                         contribution: real, next: nat)

  /**
   * The ocean drawn at call `k`: with no liquid above its freezing point,
   * the sentinel liquid and no draw; otherwise the picked liquid, whose
   * state follows from its boiling point. A sediment is recoloured and
   * tagged "Dry".
   */
  function OceanAt(rs: seq<real>, k: nat, baseTemp: int, liquids: seq<Liquid>): (o: Ocean)
    requires k < |rs| && UnitDraws(rs) && LiquidTableWellFormed(liquids)
    ensures o.next == k + (if o.state == StateNone then 0 else 1)
    ensures LiquidRules(baseTemp, o.liquid, o.state, o.oceanName, o.cloudColor, o.contribution, liquids)
    ensures o.state != StateNone ==>
      o.liquid == PickedLiquid(rs, k, baseTemp, liquids).(color := o.liquid.color, tag := o.liquid.tag)
    ensures o.state == StateBoiling || o.state == StateLiquid ==> o.liquid == PickedLiquid(rs, k, baseTemp, liquids)
    ensures o.state == StateSediment ==>
      o.liquid.color == ArtColor(PickedLiquid(rs, k, baseTemp, liquids).color, -40.0, -30.0, 0.0) && o.liquid.tag == "Dry"
    ensures o.state == StateNone ==> o.cloudColor == "#a1a1aa"
    ensures o.state == StateSediment ==> o.cloudColor == "#59544f"
    ensures o.state == StateBoiling || o.state == StateLiquid ==> o.cloudColor == o.liquid.cloud
  {
    if |FilterLiquids(liquids, baseTemp)| == 0 then
      Ocean(NoLiquid, StateNone, "None", "#a1a1aa", 0.0, k)
    else
      var c := PickedLiquid(rs, k, baseTemp, liquids);
      if Kelvin(baseTemp as real) > Kelvin(c.boil) * 3.0 then
        SedimentCloudWellFormed();
        Ocean(c.(color := ArtColor(c.color, -40.0, -30.0, 0.0), tag := "Dry"), StateSediment,
              c.name + " Sediment", "#59544f", 0.8, k + 1)
      else if Kelvin(baseTemp as real) > Kelvin(c.boil) then
        Ocean(c, StateBoiling, "Boiling " + c.name, c.cloud, 0.4, k + 1)
      else
        Ocean(c, StateLiquid, c.name, c.cloud, 0.1, k + 1)
  }

  /** The liquid step of `generatePlanetData`, drawing at call `k` when there is a candidate. */
  method PickLiquid(rs: seq<real>, k: nat, baseTemp: int, liquids: seq<Liquid>)
    returns (liquid: Liquid, state: LiquidState, oceanName: string, cloudColor: string, contribution: real, k': nat)
    requires k < |rs| && UnitDraws(rs) && LiquidTableWellFormed(liquids)
    ensures Ocean(liquid, state, oceanName, cloudColor, contribution, k') == OceanAt(rs, k, baseTemp, liquids)
  {
    var valid := FilterLiquids(liquids, baseTemp);
    if |valid| > 0 {
      var picked := valid[PickIndex(rs[k], |valid|)];
      assert picked == PickedLiquid(rs, k, baseTemp, liquids);
      k' := k + 1;
      liquid, oceanName, cloudColor := picked, picked.name, picked.cloud;
      var boilK := Kelvin(picked.boil);
      if Kelvin(baseTemp as real) > boilK * 3.0 {
        state := StateSediment;
        oceanName := picked.name + " Sediment";
        liquid := picked.(color := ArtColor(picked.color, -40.0, -30.0, 0.0), tag := "Dry");
        cloudColor := "#59544f";
        contribution := 0.8;
      } else if Kelvin(baseTemp as real) > boilK {
        state := StateBoiling;
        oceanName := "Boiling " + picked.name;
        contribution := 0.4;
      } else {
        state := StateLiquid;
        contribution := 0.1;
      }
    } else {
      liquid, state := NoLiquid, StateNone;
      oceanName, cloudColor, contribution, k' := "None", "#a1a1aa", 0.0, k;
    }
  }

  lemma SedimentCloudWellFormed()
    ensures IsHexColor("#59544f")
  {
  }

  // ---------------------------------------------------------------------------
  // Atmosphere

  /** The gas an atmosphere is named after. */
  function GasName(state: LiquidState, liquid: Liquid): string
  {
    if |liquid.gas| > 0 && state != StateNone then liquid.gas else "Inert Mix"
  }

  /** The density word of an atmosphere that is not trace. */
  function DensityWord(d: real): string
  {
    if d > 0.7 then "Dense" else if d > 0.35 then "Moderate" else "Thin"
  }

  /** The atmosphere: its name, its density, and the call that follows its draws. */
  datatype Atmosphere = Atmosphere(name: string, density: real, next: nat)

  /**
   * The atmosphere drawn from call `k` on: a gate, then the density, then
   * (for a sediment world only) a replacement density. The gate is drawn
   * even when the world ends up airless.
   */
  function AtmosphereAt(rs: seq<real>, k: nat, state: LiquidState, liquid: Liquid, contribution: real): (a: Atmosphere)
    requires k + 3 <= |rs| && UnitDraws(rs)
    ensures 0.0 <= a.density <= 1.0
    ensures a.name == "Vacuum" <==> rs[k] <= 0.2
    ensures rs[k] <= 0.2 ==> a.density == 0.0 && a.next == k + 1
    ensures rs[k] > 0.2 && state == StateSediment ==>
      a.name == "Dense Vaporized " + liquid.name && 0.9 <= a.density < 1.0 && a.next == k + 3
    ensures rs[k] > 0.2 && state != StateSediment ==>
      a.next == k + 2 &&
      (a.density < 0.05 ==> a.name == "Trace Gases") &&
      (a.density >= 0.05 ==> a.name == DensityWord(a.density) + " " + GasName(state, liquid))
    ensures rs[k] > 0.2 && state == StateSediment ==> a.density == 0.9 + rs[k + 2] * 0.1
    ensures rs[k] > 0.2 && state != StateSediment ==> a.density == Max(0.0, Min(1.0, rs[k + 1] * 0.3 + contribution))
    ensures rs[k] > 0.2 && state != StateSediment && 0.0 <= contribution <= 0.7 ==>
      contribution <= a.density < contribution + 0.3
  {
    if rs[k] > 0.2 then
      var d := Max(0.0, Min(1.0, rs[k + 1] * 0.3 + contribution));
      if state == StateSediment then
        assert ("Dense Vaporized " + liquid.name)[0] != "Vacuum"[0];
        Atmosphere("Dense Vaporized " + liquid.name, 0.9 + rs[k + 2] * 0.1, k + 3)
      else if d < 0.05 then
        assert "Trace Gases"[0] != "Vacuum"[0];
        Atmosphere("Trace Gases", d, k + 2)
      else
        assert (DensityWord(d) + " " + GasName(state, liquid))[0] == DensityWord(d)[0] != "Vacuum"[0];
        Atmosphere(DensityWord(d) + " " + GasName(state, liquid), d, k + 2)
    else
      Atmosphere("Vacuum", 0.0, k + 1)
  }

  /** The atmosphere step of `generatePlanetData`, drawing from call `k` on. */
  method DrawAtmosphere(rs: seq<real>, k: nat, state: LiquidState, liquid: Liquid, contribution: real)
    returns (atmosName: string, atmosDensity: real, k': nat)
    requires k + 3 <= |rs| && UnitDraws(rs)
    ensures Atmosphere(atmosName, atmosDensity, k') == AtmosphereAt(rs, k, state, liquid, contribution)
  {
    atmosName, atmosDensity := "None", 0.0;
    var gate := rs[k];
    k' := k + 1;
    if gate > 0.2 {
      atmosDensity := rs[k'] * 0.3;
      k' := k' + 1;
      atmosDensity := atmosDensity + contribution;
      atmosDensity := Max(0.0, Min(1.0, atmosDensity));
      if state == StateSediment {
        atmosDensity := 0.9 + rs[k'] * 0.1;
        k' := k' + 1;
        atmosName := "Dense Vaporized " + liquid.name;
      } else if atmosDensity < 0.05 {
        atmosName := "Trace Gases";
      } else {
        atmosName := DensityWord(atmosDensity) + " " + GasName(state, liquid);
      }
    } else {
      atmosName := "Vacuum";
    }
  }

  // ---------------------------------------------------------------------------
  // Life

  /** Carbon life: a water ocean between -15 and 60 degrees. */
  predicate CarbonHabitable(liquid: Liquid, baseTemp: int) {
    (liquid.name == "Water" || liquid.name == "Salt Water") && -15 < baseTemp < 60
  }

  /** Silicon life: a silicon crust between 200 and 1000 degrees. */
  predicate SiliconHabitable(solid: Solid, baseTemp: int) {
    200 < baseTemp < 1000 && solid.tag == "Si"
  }

  /** The life rules, which apply only to a liquid ocean. */
  function LifeOf(state: LiquidState, liquid: Liquid, solid: Solid, baseTemp: int): (life: Life)
    ensures life.hasLife <==> state == StateLiquid && (CarbonHabitable(liquid, baseTemp) || SiliconHabitable(solid, baseTemp))
    ensures life.hasLife ==> life.bioMinT < baseTemp < life.bioMaxT
    ensures life.lifeType == "Carbon-Based" <==> state == StateLiquid && CarbonHabitable(liquid, baseTemp)
    ensures life.lifeType == "Silicon-Based" <==> state == StateLiquid && SiliconHabitable(solid, baseTemp)
    ensures life.lifeType == "Carbon-Based" ==> life.bioColor == Some("#10b981") && life.bioMinT == -15 && life.bioMaxT == 60
    ensures life.lifeType == "Silicon-Based" ==> life.bioColor == Some("#9333ea") && life.bioMinT == 200 && life.bioMaxT == 1000
    ensures !life.hasLife ==> life == Life(false, "None", None, 0, 0)
  {
    if state == StateLiquid && CarbonHabitable(liquid, baseTemp) then
      Life(true, "Carbon-Based", Some("#10b981"), -15, 60)
    else if state == StateLiquid && SiliconHabitable(solid, baseTemp) then
      Life(true, "Silicon-Based", Some("#9333ea"), 200, 1000)
    else
      Life(false, "None", None, 0, 0)
  }

  // ---------------------------------------------------------------------------
  // Latitudes

  /** `getLatForTemp`: 0 at the warmest latitude, 1 at the coldest. */
  function LatForTemp(maxT: int, minT: int, t: real): (lat: real)
    ensures maxT == minT ==> lat == 0.5
  {
    if maxT == minT then 0.5 else (maxT as real - t) / (maxT - minT) as real
  }

  /** A temperature the planet reaches lies at a latitude in [0, 1]. */
  lemma LatForTempRange(maxT: int, minT: int, t: real)
    requires minT < maxT && minT as real <= t <= maxT as real
    ensures 0.0 <= LatForTemp(maxT, minT, t) <= 1.0
  {
    RatioBound01(maxT as real - t, (maxT - minT) as real);
  }

  /** The temperature at a latitude, on a planet whose extremes differ. */
  function TempForLat(maxT: int, minT: int, lat: real): real
  {
    maxT as real - lat * (maxT - minT) as real
  }

  lemma RatioBound01(x: real, d: real)
    requires 0.0 < d && 0.0 <= x <= d
    ensures 0.0 <= x / d <= 1.0
  {
    var q := x / d;
    assert q * d == x;
    if q > 1.0 { MulLeft(1.0, q, d); }
    if q < 0.0 { MulLeft(q, 0.0, d); }
  }

  /** The latitude of a temperature leads back to that temperature. */
  lemma LatForTempInverse(maxT: int, minT: int, t: real)
    requires minT < maxT
    ensures TempForLat(maxT, minT, LatForTemp(maxT, minT, t)) == t
  {
    var d := (maxT - minT) as real;
    var lat := LatForTemp(maxT, minT, t);
    assert lat * d == maxT as real - t;
  }

  /** Colder temperatures lie further from the warmest latitude. */
  lemma LatForTempAntitone(maxT: int, minT: int, t1: real, t2: real)
    requires minT < maxT && t1 <= t2
    ensures LatForTemp(maxT, minT, t1) >= LatForTemp(maxT, minT, t2)
  {
    var d := (maxT - minT) as real;
    var l1, l2 := LatForTemp(maxT, minT, t1), LatForTemp(maxT, minT, t2);
    assert l1 * d == maxT as real - t1;
    assert l2 * d == maxT as real - t2;
    if l1 < l2 { MulLeft(l1, l2, d); }
  }

  /** The boiling latitude; a sediment world has none and is given the sentinel -2. */
  function LatBoil(state: LiquidState, liquid: Liquid, maxT: int, minT: int): real
  {
    if state == StateSediment then -2.0 else LatForTemp(maxT, minT, OrDefault(liquid.boil, 9999.0))
  }

  /**
   * The freezing latitude. planet-logic.ts writes `liquid.freeze || 9998`, so
   * a freezing point of exactly 0 is replaced by 9998 like the sentinel's.
   */
  function LatFreeze(liquid: Liquid, maxT: int, minT: int): real
  {
    LatForTemp(maxT, minT, OrDefault(liquid.freeze, 9998.0))
  }

  /**
   * For a liquid whose freezing point is not 0, the freezing latitude leads
   * back to the freezing point, and lies in [0, 1] when the planet reaches it.
   */
  lemma LatFreezeIsFreezingPoint(liquid: Liquid, maxT: int, minT: int)
    requires liquid.freeze != 0.0 && minT < maxT
    ensures TempForLat(maxT, minT, LatFreeze(liquid, maxT, minT)) == liquid.freeze
    ensures minT as real <= liquid.freeze <= maxT as real ==> 0.0 <= LatFreeze(liquid, maxT, minT) <= 1.0
  {
    LatForTempInverse(maxT, minT, liquid.freeze);
    if minT as real <= liquid.freeze <= maxT as real {
      LatForTempRange(maxT, minT, liquid.freeze);
    }
  }

  /** Likewise the boiling latitude of a liquid that is not sediment. */
  lemma LatBoilIsBoilingPoint(state: LiquidState, liquid: Liquid, maxT: int, minT: int)
    requires state != StateSediment && liquid.boil != 0.0 && minT < maxT
    ensures TempForLat(maxT, minT, LatBoil(state, liquid, maxT, minT)) == liquid.boil
    ensures minT as real <= liquid.boil <= maxT as real ==> 0.0 <= LatBoil(state, liquid, maxT, minT) <= 1.0
  {
    LatForTempInverse(maxT, minT, liquid.boil);
    if minT as real <= liquid.boil <= maxT as real {
      LatForTempRange(maxT, minT, liquid.boil);
    }
  }

  /**
   * Water and Slime freeze at 0 degrees, so their freezing latitude is that of
   * 9998 degrees: on a planet spanning -50 to 40 degrees it lies below -110,
   * outside [0, 1], although 0 degrees lies at latitude 4/9 there.
   */
  lemma ZeroFreezeUsesSentinel()
    ensures Liquids[0].name == "Water" && Liquids[0].freeze == 0.0
    ensures Liquids[17].name == "Slime" && Liquids[17].freeze == 0.0
    ensures LatFreeze(Liquids[0], 40, -50) < -110.0
    ensures LatForTemp(40, -50, 0.0) == 4.0 / 9.0
  {
  }

  // ---------------------------------------------------------------------------
  // Water coverage

  /**
   * The water coverage drawn from call `k` on, and the call that follows:
   * one draw, by the liquid state, and on a living world a second that
   * overrides it.
   */
  function WaterAt(rs: seq<real>, k: nat, state: LiquidState, hasLife: bool): (w: (int, nat))
    requires k + 2 <= |rs| && UnitDraws(rs)
    ensures w.1 == k + (if hasLife then 2 else 1)
    ensures hasLife ==> 45 <= w.0 <= 64
    ensures !hasLife && (state == StateNone || state == StateSediment) ==> 0 <= w.0 <= 14
    ensures !hasLife && (state == StateLiquid || state == StateBoiling) ==> 30 <= w.0 <= 69
    ensures hasLife ==> w.0 == (rs[k + 1] * 20.0 + 45.0).Floor
    ensures !hasLife && (state == StateNone || state == StateSediment) ==> w.0 == (rs[k] * 15.0).Floor
    ensures !hasLife && (state == StateLiquid || state == StateBoiling) ==> w.0 == (rs[k] * 40.0 + 30.0).Floor
  {
    if hasLife then ((rs[k + 1] * 20.0 + 45.0).Floor, k + 2)
    else if state == StateNone || state == StateSediment then ((rs[k] * 15.0).Floor, k + 1)
    else ((rs[k] * 40.0 + 30.0).Floor, k + 1)
  }

  /** The water step of `generatePlanetData`, drawing from call `k` on. */
  method DrawWater(rs: seq<real>, k: nat, state: LiquidState, hasLife: bool) returns (water: int, k': nat)
    requires k + 2 <= |rs| && UnitDraws(rs)
    ensures (water, k') == WaterAt(rs, k, state, hasLife)
  {
    if state == StateNone || state == StateSediment {
      water := (rs[k] * 15.0).Floor;
    } else {
      water := (rs[k] * 40.0 + 30.0).Floor;
    }
    k' := k + 1;
    if hasLife {
      water := (rs[k'] * 20.0 + 45.0).Floor;
      k' := k' + 1;
    }
  }

  // ---------------------------------------------------------------------------
  // The whole generator

  /** A solid taken from `solids` or the fallback, possibly with its colour replaced. */
  ghost predicate SolidFromTable(s: Solid, solids: seq<Solid>) {
    exists c :: (c in solids || c == ScorchedCrust) && s == c.(color := s.color)
  }

  /** The temperatures and materials, as the first half of `generatePlanetData` leaves its locals. */
  datatype Materials = Materials(
    baseTemp: int, maxT: int, minT: int,
    solid: Solid, solidName: string,
    liquid: Liquid, state: LiquidState, oceanName: string, cloudColor: string, contribution: real)

  /** The temperature rules: the base temperature's range and the spread around it. */
  predicate TemperatureRules(m: Materials, rs: seq<real>)
    requires |rs| >= 3
  {
    && -300 <= m.baseTemp <= 4798 && (rs[1] <= 0.92 ==> m.baseTemp <= 299)
    && m.baseTemp + 20 <= m.maxT <= m.baseTemp + 69 && m.baseTemp - 119 <= m.minT <= m.baseTemp - 40
  }

  /** The solid rules: an allowed solid of the table, renamed when molten. */
  ghost predicate SolidRules(baseTemp: int, solid: Solid, solidName: string, solids: seq<Solid>) {
    && SolidFromTable(solid, solids) && SolidAllowed(solid, baseTemp)
    && (Molten(baseTemp, solid.melt) ==> solidName == "Molten " + solid.name)
    && (!Molten(baseTemp, solid.melt) ==> solidName == solid.name)
    && IsHexColor(solid.color) && 0.4 <= solid.roughness <= 1.5
  }

  /** The liquid rules: the state follows from the boiling point, and names the ocean. */
  predicate LiquidRules(baseTemp: int, liquid: Liquid, state: LiquidState, oceanName: string,
                        cloudColor: string, contribution: real, liquids: seq<Liquid>) {
    && (state == StateNone <==> |FilterLiquids(liquids, baseTemp)| == 0)
    && (state == StateNone ==> liquid == NoLiquid && oceanName == "None" && contribution == 0.0)
    && (state != StateNone ==> LiquidAllowed(liquid, baseTemp))
    && (state == StateSediment <==> state != StateNone && Kelvin(baseTemp as real) > Kelvin(liquid.boil) * 3.0)
    && (state == StateBoiling <==>
          state != StateNone && Kelvin(liquid.boil) < Kelvin(baseTemp as real) <= Kelvin(liquid.boil) * 3.0)
    && (state == StateSediment ==>
          oceanName == liquid.name + " Sediment" && liquid.tag == "Dry" && contribution == 0.8)
    && (state == StateBoiling ==> oceanName == "Boiling " + liquid.name && liquid in liquids && contribution == 0.4)
    && (state == StateLiquid ==> oceanName == liquid.name && liquid in liquids && contribution == 0.1)
    && IsHexColor(cloudColor) && IsHexColor(liquid.frozenColor)
  }

  /** The temperature, solid and liquid rules, for tables `solids` and `liquids`. */
  ghost predicate MaterialRules(m: Materials, rs: seq<real>, solids: seq<Solid>, liquids: seq<Liquid>)
    requires |rs| >= 3
  {
    && TemperatureRules(m, rs)
    && SolidRules(m.baseTemp, m.solid, m.solidName, solids)
    && LiquidRules(m.baseTemp, m.liquid, m.state, m.oceanName, m.cloudColor, m.contribution, liquids)
  }

  /**
   * The first half of `generatePlanetData`, from the first call: the
   * temperatures, then the solid, then the liquid and its state; and the
   * call that follows.
   */
  function MaterialsAt(rs: seq<real>, solids: seq<Solid>, liquids: seq<Liquid>): (r: (Materials, nat))
    requires |rs| >= 8 && UnitDraws(rs)
    requires SolidTableWellFormed(solids) && LiquidTableWellFormed(liquids)
    ensures r.1 == 5 + (if rs[1] > 0.92 then 1 else 0) + (if |FilterSolids(solids, r.0.baseTemp)| > 0 then 1 else 0)
                     + (if r.0.state != StateNone then 1 else 0)
    ensures 5 <= r.1 <= 8
    ensures MaterialRules(r.0, rs, solids, liquids)
  {
    var t := TemperaturesAt(rs, 0);
    var s := SurfaceAt(rs, t.next, t.baseTemp, solids);
    var o := OceanAt(rs, s.next, t.baseTemp, liquids);
    (Materials(t.baseTemp, t.maxT, t.minT, s.solid, s.solidName, o.liquid, o.state, o.oceanName, o.cloudColor,
               o.contribution),
     o.next)
  }

  /** The first half of `generatePlanetData`, step by step. */
  method DrawMaterials(rs: seq<real>, solids: seq<Solid>, liquids: seq<Liquid>) returns (m: Materials, k: nat)
    requires |rs| >= 8 && UnitDraws(rs)
    requires SolidTableWellFormed(solids) && LiquidTableWellFormed(liquids)
    ensures (m, k) == MaterialsAt(rs, solids, liquids)
  {
    var baseTemp, maxT, minT, k0 := DrawTemperatures(rs, 0);
    var solid, solidName, k1 := PickSolid(rs, k0, baseTemp, solids);
    var liquid, state, oceanName, cloudColor, contribution, k2 := PickLiquid(rs, k1, baseTemp, liquids);
    m := Materials(baseTemp, maxT, minT, solid, solidName, liquid, state, oceanName, cloudColor, contribution);
    k := k2;
  }

  /** The number of draws `generatePlanetData` makes. */
  function PlanetDraws(jump: bool, solidDrawn: bool, state: LiquidState, atmosName: string, hasLife: bool): nat
  {
    10 + (if jump then 1 else 0) + (if solidDrawn then 1 else 0) + (if state != StateNone then 1 else 0)
       + (if atmosName != "Vacuum" then 1 else 0)
       + (if state == StateSediment && atmosName != "Vacuum" then 1 else 0) + (if hasLife then 1 else 0)
  }

  /** The colours later stages take from a planet are well formed. */
  predicate ColorsWellFormed(p: PlanetData) {
    IsHexColor(p.solid.color) && IsHexColor(p.cloudHex) && IsHexColor(p.liquid.frozenColor)
  }

  /** The result carries the materials unchanged. */
  predicate CarriesMaterials(p: PlanetData, m: Materials) {
    p.baseTemp == m.baseTemp && p.maxT == m.maxT && p.minT == m.minT && p.solid == m.solid
    && p.solidName == m.solidName && p.liquid == m.liquid && p.oceanName == m.oceanName && p.cloudHex == m.cloudColor
  }

  /** A generated planet, the materials behind it (they hold the local `liquidState`), and the number of draws. */
  datatype Generated = Generated(planet: PlanetData, materials: Materials, used: nat)

  /**
   * The second half of `generatePlanetData`, after materials `m` whose draws
   * end before call `k`: the atmosphere, life, latitudes, water coverage,
   * tilt, rings, base frequency and roughness.
   */
  function PlanetFrom(rs: seq<real>, m: Materials, k: nat): (g: Generated)
    requires k + 8 <= |rs| && UnitDraws(rs)
    ensures CarriesMaterials(g.planet, g.materials) && g.materials == m
  {
    var a := AtmosphereAt(rs, k, m.state, m.liquid, m.contribution);
    var life := LifeOf(m.state, m.liquid, m.solid, m.baseTemp);
    var w := WaterAt(rs, a.next, m.state, life.hasLife);
    var j := w.1;
    var p := PlanetData(m.baseTemp, m.maxT, m.minT, m.solid, m.liquid,
                        LatBoil(m.state, m.liquid, m.maxT, m.minT), LatFreeze(m.liquid, m.maxT, m.minT),
                        m.oceanName, m.solidName, a.name, a.density, m.cloudColor,
                        life.hasLife, life.lifeType, life.bioColor, life.bioMinT, life.bioMaxT,
                        rs[j] * 45.0, rs[j + 1] < 0.10, 0.006 - m.solid.roughness * 0.5 * 0.0045,
                        w.0, TerrainRoughness(m.solid.roughness, rs[j + 2]));
    Generated(p, m, j + 3)
  }

  /**
   * `generatePlanetData(rng)`, reading the solid and liquid tables `solids`
   * and `liquids` (planet-logic.ts passes `SOLIDS` and `LIQUIDS`, which
   * `Catalog.CatalogWellFormed` shows well formed).
   */
  function PlanetAt(rs: seq<real>, solids: seq<Solid>, liquids: seq<Liquid>): (g: Generated)
    requires |rs| >= MaxPlanetDraws && UnitDraws(rs)
    requires SolidTableWellFormed(solids) && LiquidTableWellFormed(liquids)
  {
    var mk := MaterialsAt(rs, solids, liquids);
    PlanetFrom(rs, mk.0, mk.1)
  }

  /** The number of draws of `generatePlanetData`, and the last three: tilt, rings and roughness. */
  lemma PlanetDrawsUsed(rs: seq<real>, solids: seq<Solid>, liquids: seq<Liquid>, p: PlanetData, m: Materials, used: nat)
    requires |rs| >= MaxPlanetDraws && UnitDraws(rs)
    requires SolidTableWellFormed(solids) && LiquidTableWellFormed(liquids)
    requires Generated(p, m, used) == PlanetAt(rs, solids, liquids)
    ensures used == PlanetDraws(rs[1] > 0.92, |FilterSolids(solids, p.baseTemp)| > 0, m.state,
                                  p.atmosName, p.hasLife)
    ensures 10 <= used <= MaxPlanetDraws
    ensures p.tilt == rs[used - 3] * 45.0 && (p.rings <==> rs[used - 2] < 0.1)
    ensures p.roughness == TerrainRoughness(p.solid.roughness, rs[used - 1])
    ensures 0.0 <= p.tilt < 45.0
    ensures 0.2 <= p.roughness < 2.25
  {
    var mk := MaterialsAt(rs, solids, liquids);
    var a := AtmosphereAt(rs, mk.1, m.state, m.liquid, m.contribution);
    var life := LifeOf(m.state, m.liquid, m.solid, m.baseTemp);
    var j := WaterAt(rs, a.next, m.state, life.hasLife).1;
    assert m == mk.0 && used == j + 3 && p.atmosName == a.name && p.hasLife == life.hasLife;
    RoughnessRange(m.solid.roughness, rs[j + 2]);
  }

  /**
   * The planet keeps the materials of the first half, which follow the
   * temperature, solid and liquid rules; its latitudes are those of its liquid.
   */
  lemma PlanetMaterials(rs: seq<real>, solids: seq<Solid>, liquids: seq<Liquid>, p: PlanetData, m: Materials, used: nat)
    requires |rs| >= MaxPlanetDraws && UnitDraws(rs)
    requires SolidTableWellFormed(solids) && LiquidTableWellFormed(liquids)
    requires Generated(p, m, used) == PlanetAt(rs, solids, liquids)
    ensures MaterialRules(m, rs, solids, liquids) && CarriesMaterials(p, m)
    ensures p.latBoil == LatBoil(m.state, p.liquid, p.maxT, p.minT)
    ensures p.latFreeze == LatFreeze(p.liquid, p.maxT, p.minT)
    ensures ColorsWellFormed(p)
  {
  }

  /**
   * Every field of the planet comes from its step, in draw order: the
   * temperatures from the first call, the crust after them, the ocean after
   * the crust, then the atmosphere and the water coverage.
   */
  lemma PlanetSteps(rs: seq<real>, solids: seq<Solid>, liquids: seq<Liquid>, p: PlanetData, m: Materials, used: nat)
    requires |rs| >= MaxPlanetDraws && UnitDraws(rs)
    requires SolidTableWellFormed(solids) && LiquidTableWellFormed(liquids)
    requires Generated(p, m, used) == PlanetAt(rs, solids, liquids)
    ensures var t := TemperaturesAt(rs, 0);
      p.baseTemp == t.baseTemp && p.maxT == t.maxT && p.minT == t.minT
    ensures var t := TemperaturesAt(rs, 0); var s := SurfaceAt(rs, t.next, t.baseTemp, solids);
      p.solid == s.solid && p.solidName == s.solidName
    ensures var t := TemperaturesAt(rs, 0); var s := SurfaceAt(rs, t.next, t.baseTemp, solids);
      var o := OceanAt(rs, s.next, t.baseTemp, liquids);
      p.liquid == o.liquid && m.state == o.state && p.oceanName == o.oceanName && p.cloudHex == o.cloudColor
    ensures var a := AtmosphereAt(rs, MaterialsAt(rs, solids, liquids).1, m.state, m.liquid, m.contribution);
      p.atmosName == a.name && p.atmosDensity == a.density
      && p.suggestedWater == WaterAt(rs, a.next, m.state, p.hasLife).0
  {
  }

  /**
   * The atmosphere: vacuum exactly when the gate draw after the materials is
   * at most 0.2, and otherwise named and sized by the liquid state.
   */
  lemma PlanetAtmosphere(rs: seq<real>, solids: seq<Solid>, liquids: seq<Liquid>, p: PlanetData, m: Materials, used: nat)
    requires |rs| >= MaxPlanetDraws && UnitDraws(rs)
    requires SolidTableWellFormed(solids) && LiquidTableWellFormed(liquids)
    requires Generated(p, m, used) == PlanetAt(rs, solids, liquids)
    ensures p.atmosName == "Vacuum" <==> rs[MaterialsAt(rs, solids, liquids).1] <= 0.2
    ensures 0.0 <= p.atmosDensity <= 1.0
    ensures p.atmosName == "Vacuum" ==> p.atmosDensity == 0.0
    ensures m.state == StateSediment && p.atmosName != "Vacuum" ==>
      p.atmosName == "Dense Vaporized " + p.liquid.name && 0.9 <= p.atmosDensity
    ensures m.state == StateLiquid && p.atmosName != "Vacuum" ==> 0.1 <= p.atmosDensity < 0.4
    ensures m.state == StateBoiling && p.atmosName != "Vacuum" ==> 0.4 <= p.atmosDensity < 0.7
    ensures m.state != StateSediment && p.atmosName != "Vacuum" && p.atmosDensity < 0.05 ==>
      p.atmosName == "Trace Gases"
    ensures m.state != StateSediment && p.atmosName != "Vacuum" && p.atmosDensity >= 0.05 ==>
      p.atmosName == DensityWord(p.atmosDensity) + " " + GasName(m.state, p.liquid)
  {
  }

  /**
   * Life appears exactly on a habitable liquid world; the water coverage
   * depends on it and on the liquid state.
   */
  lemma PlanetLife(rs: seq<real>, solids: seq<Solid>, liquids: seq<Liquid>, p: PlanetData, m: Materials, used: nat)
    requires |rs| >= MaxPlanetDraws && UnitDraws(rs)
    requires SolidTableWellFormed(solids) && LiquidTableWellFormed(liquids)
    requires Generated(p, m, used) == PlanetAt(rs, solids, liquids)
    ensures p.hasLife <==>
      m.state == StateLiquid && (CarbonHabitable(p.liquid, p.baseTemp) || SiliconHabitable(p.solid, p.baseTemp))
    ensures p.hasLife ==> p.bioMinT < p.baseTemp < p.bioMaxT && p.bioColor.Some?
    ensures !p.hasLife ==> p.lifeType == "None" && p.bioColor == None
    ensures p.hasLife ==> 45 <= p.suggestedWater <= 64
    ensures !p.hasLife && (m.state == StateNone || m.state == StateSediment) ==>
      0 <= p.suggestedWater <= 14
    ensures !p.hasLife && (m.state == StateLiquid || m.state == StateBoiling) ==>
      30 <= p.suggestedWater <= 69
  {
  }

  /** The base noise frequency falls as the solid gets rougher. */
  lemma PlanetBaseFreq(rs: seq<real>, solids: seq<Solid>, liquids: seq<Liquid>, p: PlanetData, m: Materials, used: nat)
    requires |rs| >= MaxPlanetDraws && UnitDraws(rs)
    requires SolidTableWellFormed(solids) && LiquidTableWellFormed(liquids)
    requires Generated(p, m, used) == PlanetAt(rs, solids, liquids)
    ensures p.baseFreq == 0.006 - p.solid.roughness * 0.00225
    ensures 0.002625 <= p.baseFreq <= 0.0051
  {
  }

  /** `generatePlanetData(rng)` step by step, as planet-logic.ts writes it. */
  method GeneratePlanetData(rs: seq<real>, solids: seq<Solid>, liquids: seq<Liquid>)
    returns (p: PlanetData, m: Materials, used: nat)
    requires |rs| >= MaxPlanetDraws && UnitDraws(rs)
    requires SolidTableWellFormed(solids) && LiquidTableWellFormed(liquids)
    ensures Generated(p, m, used) == PlanetAt(rs, solids, liquids)
  {
    var k;
    m, k := DrawMaterials(rs, solids, liquids);
    p, used := FinishPlanet(rs, m, k);
  }

  /** The second half of `generatePlanetData`, from call `k` on, after the materials `m`. */
  method FinishPlanet(rs: seq<real>, m: Materials, k: nat) returns (p: PlanetData, used: nat)
    requires k + 8 <= |rs| && UnitDraws(rs) && 0.4 <= m.solid.roughness <= 1.5
    ensures Generated(p, m, used) == PlanetFrom(rs, m, k)
  {
    var atmosName, atmosDensity, k3 := DrawAtmosphere(rs, k, m.state, m.liquid, m.contribution);
    var life := LifeOf(m.state, m.liquid, m.solid, m.baseTemp);
    var latBoil := LatBoil(m.state, m.liquid, m.maxT, m.minT);
    var latFreeze := LatFreeze(m.liquid, m.maxT, m.minT);
    var water, k4 := DrawWater(rs, k3, m.state, life.hasLife);
    var tilt, rings, roughness, k5 := DrawOrientation(rs, k4, m.solid.roughness);
    var baseFreq := 0.006 - m.solid.roughness * 0.5 * 0.0045;
    used := k5;
    p := PlanetData(m.baseTemp, m.maxT, m.minT, m.solid, m.liquid, latBoil, latFreeze, m.oceanName, m.solidName,
                    atmosName, atmosDensity, m.cloudColor, life.hasLife, life.lifeType, life.bioColor,
                    life.bioMinT, life.bioMaxT, tilt, rings, baseFreq, water, roughness);
  }

  /** The last three draws, in the order the result object lists them: tilt, rings, roughness. */
  method DrawOrientation(rs: seq<real>, k: nat, solidRoughness: real)
    returns (tilt: real, rings: bool, roughness: real, k': nat)
    requires k + 3 <= |rs| && UnitDraws(rs) && 0.4 <= solidRoughness <= 1.5
    ensures k' == k + 3
    ensures tilt == rs[k] * 45.0 && 0.0 <= tilt < 45.0
    ensures rings <==> rs[k + 1] < 0.1
    ensures roughness == TerrainRoughness(solidRoughness, rs[k + 2]) && 0.2 <= roughness < 2.25
  {
    tilt := rs[k] * 45.0;
    rings := rs[k + 1] < 0.10;
    roughness := TerrainRoughness(solidRoughness, rs[k + 2]);
    RoughnessRange(solidRoughness, rs[k + 2]);
    k' := k + 3;
  }

  /** The solid's roughness scaled by a factor in [0.5, 1.5). */
  function TerrainRoughness(base: real, r: real): real
  {
    base * (0.5 + r)
  }

  lemma RoughnessRange(base: real, r: real)
    requires 0.4 <= base <= 1.5 && 0.0 <= r < 1.0
    ensures 0.2 <= TerrainRoughness(base, r) < 2.25
  {
    var m := 0.5 + r;
    MulLe(0.4, base, m);
    MulLe(base, 1.5, m);
    var x := base * m;
    assert 0.2 <= 0.4 * m <= x;
    assert x <= 1.5 * m < 2.25;
  }
}

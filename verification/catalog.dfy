/**
 * The two read-only material tables of planet-logic.ts, `LIQUIDS` and
 * `SOLIDS`, and the filters `generatePlanetData` applies to them.
 * The source field `type` is called `kind` here (`type` is a Dafny keyword).
 */
module Catalog {
  import opened Color

  datatype Liquid = Liquid(name: string, color: string, freeze: real, boil: real, tag: string,
                           cloud: string, frozenColor: string, kind: string, gas: string)

  datatype Solid = Solid(name: string, color: string, tag: string, roughness: real, kind: string, melt: real)

  const Liquids: seq<Liquid> := [
    Liquid("Water",         "#3b82f6",    0.0,  100.0, "C",   "#ffffff", "#e0f2fe", "standard", "Water Vapor"),
    Liquid("Salt Water",    "#2563eb",   -2.0,  102.0, "C",   "#f1f5f9", "#bfdbfe", "standard", "Water Vapor"),
    Liquid("Heavy Water",   "#60a5fa",    3.8,  101.0, "C",   "#e0f2fe", "#93c5fd", "standard", "Deuterium"),
    Liquid("Peroxide",      "#7dd3fc",   -0.4,  150.0, "O",   "#e0f2fe", "#e0f2fe", "standard", "Oxygen"),
    Liquid("Vinegar",       "#fde047",   -2.0,  118.0, "C",   "#fef9c3", "#facc15", "acid",     "Acetic Acid"),
    Liquid("Brine",         "#0284c7",  -21.0,  108.0, "C",   "#f0f9ff", "#bae6fd", "standard", "Chlorine"),
    Liquid("Methane",       "#38bdf8", -182.0, -161.0, "C",   "#bae6fd", "#bae6fd", "volatile", "Methane"),
    Liquid("Ethane",        "#0ea5e9", -183.0,  -88.0, "C",   "#e0f2fe", "#7dd3fc", "volatile", "Ethane"),
    Liquid("Nitrogen",      "#60a5fa", -210.0, -195.0, "N",   "#f1f5f9", "#93c5fd", "volatile", "Nitrogen"),
    Liquid("Ammonia",       "#2dd4bf",  -77.0,  -33.0, "N",   "#ccfbf1", "#5eead4", "acid",     "Ammonia"),
    Liquid("Chlorine",      "#a3e635", -101.0,  -34.0, "Cl",  "#d9f99d", "#84cc16", "acid",     "Chlorine Gas"),
    Liquid("Sulfuric Acid", "#facc15",   10.0,  337.0, "S",   "#fef08a", "#eab308", "acid",     "Sulfur Dioxide"),
    Liquid("Nitric Acid",   "#fb7185",  -42.0,   83.0, "N",   "#fca5a5", "#f43f5e", "acid",     "Nitrogen Dioxide"),
    Liquid("Lava",          "#ff4500",  700.0, 3000.0, "Si",  "#57534e", "#292524", "magma",    "Silicate Vapor"),
    Liquid("Mercury",       "#cbd5e1",  -39.0,  357.0, "Fe",  "#e2e8f0", "#94a3b8", "metal",    "Mercury Vapor"),
    Liquid("Crude Oil",     "#020617",  -57.0,  200.0, "C",   "#52525b", "#000000", "viscous",  "Petroleum Gas"),
    Liquid("Blood",         "#dc2626",   -2.0,  100.0, "Bio", "#fca5a5", "#991b1b", "organic",  "Iron Oxide"),
    Liquid("Slime",         "#86efac",    0.0,  110.0, "Bio", "#bbf7d0", "#22c55e", "organic",  "Methane")
  ]

  const Solids: seq<Solid> := [
    Solid("Silicate",    "#78716c", "Si",  1.0, "rock",    1200.0),
    Solid("Basalt",      "#3f3f46", "Si",  1.0, "rock",    1100.0),
    Solid("Granite",     "#a1a1aa", "Si",  1.3, "rock",    1215.0),
    Solid("Sandstone",   "#f59e0b", "Si",  0.5, "rock",    1300.0),
    Solid("Limestone",   "#e5e5e5", "C",   0.8, "rock",     900.0),
    Solid("Obsidian",    "#18181b", "Si",  1.1, "glass",   1000.0),
    Solid("Pumice",      "#d4d4d8", "Si",  1.5, "rock",    1200.0),
    Solid("Regolith",    "#737373", "Si",  1.4, "dust",    1200.0),
    Solid("Slate",       "#475569", "Si",  0.9, "rock",    1200.0),
    Solid("Marble",      "#f3f4f6", "C",   0.7, "rock",    1200.0),
    Solid("Water Ice",   "#e2e8f0", "C",   0.7, "ice",        0.0),
    Solid("Dry Ice",     "#eff6ff", "C",   0.4, "ice",      -78.0),
    Solid("Blue Ice",    "#bfdbfe", "C",   0.9, "ice",        0.0),
    Solid("Methane Ice", "#7dd3fc", "C",   0.5, "ice",     -182.0),
    Solid("Iron Ore",    "#b91c1c", "Fe",  1.2, "metal",   1538.0),
    Solid("Gold Vein",   "#facc15", "Fe",  1.0, "metal",   1064.0),
    Solid("Copper Ox",   "#34d399", "Fe",  0.8, "metal",   1085.0),
    Solid("Titanium",    "#94a3b8", "Fe",  0.9, "metal",   1668.0),
    Solid("Bone",        "#fef3c7", "Bio", 0.9, "organic",  200.0)
  ]

  /** The record used when no solid passes the filter. */
  const ScorchedCrust: Solid := Solid("Scorched Crust", "#1a0500", "Si", 1.2, "rock", 9999.0)

  /** The sentinel liquid used when no liquid is above its freezing point. */
  const NoLiquid: Liquid := Liquid("None", "#000", 0.0, 0.0, "-", "#a1a1aa", "#a1a1aa", "none", "none")

  /** The solid filter: an ice whose melting point the base temperature exceeds is dropped. */
  predicate SolidAllowed(s: Solid, baseTemp: int) {
    !(s.kind == "ice" && baseTemp as real > s.melt)
  }

  /** The liquid filter: the base temperature must exceed the freezing point. */
  predicate LiquidAllowed(l: Liquid, baseTemp: int) {
    baseTemp as real > l.freeze
  }

  /** `SOLIDS.filter(...)`, keeping the table order. */
  function FilterSolids(ss: seq<Solid>, baseTemp: int): (r: seq<Solid>)
    ensures |r| <= |ss|
    ensures forall s :: s in r <==> s in ss && SolidAllowed(s, baseTemp)
  {
    if ss == [] then []
    else if SolidAllowed(ss[0], baseTemp) then [ss[0]] + FilterSolids(ss[1..], baseTemp)
    else FilterSolids(ss[1..], baseTemp)
  }

  /** `LIQUIDS.filter(l => baseTemp > l.freeze)`, keeping the table order. */
  function FilterLiquids(ls: seq<Liquid>, baseTemp: int): (r: seq<Liquid>)
    ensures |r| <= |ls|
    ensures forall l :: l in r <==> l in ls && LiquidAllowed(l, baseTemp)
  {
    if ls == [] then []
    else if LiquidAllowed(ls[0], baseTemp) then [ls[0]] + FilterLiquids(ls[1..], baseTemp)
    else FilterLiquids(ls[1..], baseTemp)
  }

  /** Whatever the base temperature, some solid passes the filter: the "Scorched Crust" fallback is never used. */
  lemma ValidSolidsNonEmpty(baseTemp: int)
    ensures |FilterSolids(Solids, baseTemp)| > 0
  {
    assert Solids[0] in Solids && SolidAllowed(Solids[0], baseTemp);
    assert Solids[0] in FilterSolids(Solids, baseTemp);
  }

  /** What the generator relies on about a solid table: hex colours and a roughness in [0.4, 1.5]. */
  predicate SolidTableWellFormed(ss: seq<Solid>) {
    forall s :: s in ss ==> IsHexColor(s.color) && 0.4 <= s.roughness <= 1.5
  }

  /** What the generator relies on about a liquid table: hex colours. */
  predicate LiquidTableWellFormed(ls: seq<Liquid>) {
    forall l :: l in ls ==> IsHexColor(l.color) && IsHexColor(l.cloud) && IsHexColor(l.frozenColor)
  }

  /** Both tables of planet-logic.ts are well formed, and so is the fallback solid. */
  lemma CatalogWellFormed()
    ensures SolidTableWellFormed(Solids) && LiquidTableWellFormed(Liquids)
    ensures IsHexColor(ScorchedCrust.color) && 0.4 <= ScorchedCrust.roughness <= 1.5
  {
    SolidsWellFormed();
    LiquidsWellFormed();
    ScorchedCrustWellFormed();
  }

  lemma SolidsWellFormed()
    ensures SolidTableWellFormed(Solids)
  {
    SolidColorsLow();
    SolidColorsHigh();
    RoughnessLow();
    RoughnessHigh();
    forall s | s in Solids
      ensures IsHexColor(s.color) && 0.4 <= s.roughness <= 1.5
    {
      var i :| 0 <= i < |Solids| && Solids[i] == s;
    }
  }

  lemma LiquidsWellFormed()
    ensures LiquidTableWellFormed(Liquids)
  {
    LiquidColors();
    LiquidClouds();
    LiquidFrozenColors();
    forall l | l in Liquids
      ensures IsHexColor(l.color) && IsHexColor(l.cloud) && IsHexColor(l.frozenColor)
    {
      var i :| 0 <= i < |Liquids| && Liquids[i] == l;
    }
  }

  lemma ScorchedCrustWellFormed()
    ensures IsHexColor(ScorchedCrust.color) && 0.4 <= ScorchedCrust.roughness <= 1.5
  {
  }

  lemma SolidColorsLow()
    ensures forall i :: 0 <= i < 10 ==> IsHexColor(Solids[i].color)
  {
  }

  lemma SolidColorsHigh()
    ensures forall i :: 10 <= i < |Solids| ==> IsHexColor(Solids[i].color)
  {
  }

  lemma LiquidColors()
    ensures forall i :: 0 <= i < |Liquids| ==> IsHexColor(Liquids[i].color)
  {
    LiquidColorsFrom0();
    LiquidColorsFrom3();
    LiquidColorsFrom6();
    LiquidColorsFrom9();
    LiquidColorsFrom12();
    LiquidColorsFrom15();
  }

  lemma LiquidColorsFrom0()
    ensures forall i :: 0 <= i < 3 ==> IsHexColor(Liquids[i].color)
  {
  }

  lemma LiquidColorsFrom3()
    ensures forall i :: 3 <= i < 6 ==> IsHexColor(Liquids[i].color)
  {
  }

  lemma LiquidColorsFrom6()
    ensures forall i :: 6 <= i < 9 ==> IsHexColor(Liquids[i].color)
  {
  }

  lemma LiquidColorsFrom9()
    ensures forall i :: 9 <= i < 12 ==> IsHexColor(Liquids[i].color)
  {
  }

  lemma LiquidColorsFrom12()
    ensures forall i :: 12 <= i < 15 ==> IsHexColor(Liquids[i].color)
  {
  }

  lemma LiquidColorsFrom15()
    ensures forall i :: 15 <= i < 18 ==> IsHexColor(Liquids[i].color)
  {
  }
  lemma LiquidClouds()
    ensures forall i :: 0 <= i < |Liquids| ==> IsHexColor(Liquids[i].cloud)
  {
    LiquidCloudsFrom0();
    LiquidCloudsFrom3();
    LiquidCloudsFrom6();
    LiquidCloudsFrom9();
    LiquidCloudsFrom12();
    LiquidCloudsFrom15();
  }

  lemma LiquidCloudsFrom0()
    ensures forall i :: 0 <= i < 3 ==> IsHexColor(Liquids[i].cloud)
  {
  }

  lemma LiquidCloudsFrom3()
    ensures forall i :: 3 <= i < 6 ==> IsHexColor(Liquids[i].cloud)
  {
  }

  lemma LiquidCloudsFrom6()
    ensures forall i :: 6 <= i < 9 ==> IsHexColor(Liquids[i].cloud)
  {
  }

  lemma LiquidCloudsFrom9()
    ensures forall i :: 9 <= i < 12 ==> IsHexColor(Liquids[i].cloud)
  {
  }

  lemma LiquidCloudsFrom12()
    ensures forall i :: 12 <= i < 15 ==> IsHexColor(Liquids[i].cloud)
  {
  }

  lemma LiquidCloudsFrom15()
    ensures forall i :: 15 <= i < 18 ==> IsHexColor(Liquids[i].cloud)
  {
  }
  lemma LiquidFrozenColors()
    ensures forall i :: 0 <= i < |Liquids| ==> IsHexColor(Liquids[i].frozenColor)
  {
    LiquidFrozenColorsFrom0();
    LiquidFrozenColorsFrom3();
    LiquidFrozenColorsFrom6();
    LiquidFrozenColorsFrom9();
    LiquidFrozenColorsFrom12();
    LiquidFrozenColorsFrom15();
  }

  lemma LiquidFrozenColorsFrom0()
    ensures forall i :: 0 <= i < 3 ==> IsHexColor(Liquids[i].frozenColor)
  {
  }

  lemma LiquidFrozenColorsFrom3()
    ensures forall i :: 3 <= i < 6 ==> IsHexColor(Liquids[i].frozenColor)
  {
  }

  lemma LiquidFrozenColorsFrom6()
    ensures forall i :: 6 <= i < 9 ==> IsHexColor(Liquids[i].frozenColor)
  {
  }

  lemma LiquidFrozenColorsFrom9()
    ensures forall i :: 9 <= i < 12 ==> IsHexColor(Liquids[i].frozenColor)
  {
  }

  lemma LiquidFrozenColorsFrom12()
    ensures forall i :: 12 <= i < 15 ==> IsHexColor(Liquids[i].frozenColor)
  {
  }

  lemma LiquidFrozenColorsFrom15()
    ensures forall i :: 15 <= i < 18 ==> IsHexColor(Liquids[i].frozenColor)
  {
  }
  lemma RoughnessLow()
    ensures forall i :: 0 <= i < 10 ==> 0.4 <= Solids[i].roughness <= 1.5
  {
  }

  lemma RoughnessHigh()
    ensures forall i :: 10 <= i < |Solids| ==> 0.4 <= Solids[i].roughness <= 1.5
  {
  }
}

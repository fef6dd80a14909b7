# planet-logic.ts in Dafny

A model of the procedural planet generator in `planet-logic.ts`, with proofs
about it. The generator turns a seed string into a stream of random numbers
(`createRNG`). From that stream it draws a planet's physical description
(`generatePlanetData`): temperatures, a solid crust, an ocean liquid and
its state, an atmosphere, life, freezing and boiling latitudes, water, tilt,
rings and terrain roughness. From that description it then draws the art:
- the seven-colour crust palette (`generatePalette`);
- the cloud clusters (`generateCloudPaths`);
- the rings (`generateRingPaths`);
- the geological fault lines (`generateGeologyPaths`);
- the terrain-layer thresholds (`generateLayerThresholds`).

The colour helpers `hexToHSL`, `hslToHex` and `artColor` are modelled
exactly, on rationals.

Modules, one per file:

| file | module | models |
|---|---|---|
| `stream.dfy` | `SeededStream` | `createRNG`: the seed hash fold, the mulberry32 closure as a class, and the unbounded view `Source(state)` that the art generators read |
| `color.dfy` | `Color` | `hexToHSL`, `hslToHex`, `artColor` |
| `catalog.dfy` | `Catalog` | the `LIQUIDS` and `SOLIDS` tables and the two filters |
| `planet.dfy` | `Planet` | `generatePlanetData` |
| `palette.dfy` | `Palette` | `generatePalette` |
| `clouds.dfy` | `Clouds` | `generateCloudPaths` with its spine, shape and stack helpers |
| `rings.dfy` | `Rings` | `generateRingPaths` |
| `geology.dfy` | `Geology` | `generateGeologyPaths` |
| `layers.dfy` | `Layers` | `generateLayerThresholds` |
| `text.dfy` | `Text` | decimal printing of the indices in element keys |
| `options.dfy` | `Options` | the `Option` type |

## Randomness and arithmetic

The `rng` closure is modelled in two ways:
- `generatePlanetData` reads a sequence `rs` of numbers in [0, 1) through a cursor;
- the art generators read a function `rng: nat -> real` whose every value lies in [0, 1).

Every method that draws states exactly where its draws end, as a returned cursor or count:
- the planet description, the ring generator and the cloud spine, outline, placement and cluster counts are proved equal to reference functions (`PlanetAt`, `ComplexRingsAt`, `SpinePoint`, `ShapeOutline`, `ClusterEnd`, ...), so each value is tied to the draw it comes from;
- `Clouds.StackLayer` and `Clouds.Sidecar` state their draw counts exactly but only bound the slice start, sideways shift and sidecar width their draws produce.

`SeededStream.SourceIsDraws` and `SeededStream.Replay` connect both views to the seeded stream.

Numbers are exact `real`s. The fold of the seed hash is done on integers, with JavaScript's ToInt32 written out. The mixing round is done on `bv32`.

## Model

| member | source | states |
|---|---|---|
| SeededStream.FoldHash | planet-logic.ts:138-142 | the loop's hash equals the left fold `Hash` of the seed's code units |
| SeededStream.HashIsPolyHash | planet-logic.ts:139-142 | the fold with its 32-bit truncations is congruent modulo 2^32 to Java's `String.hashCode` polynomial |
| SeededStream.InitialValueIsHashCode | planet-logic.ts:143 | the initial state is `String.hashCode` of the seed as an unsigned number, or 1 when that is 0 |
| SeededStream.Stream.constructor | planet-logic.ts:137-143 | a new stream holds the initial seed of its string |
| SeededStream.Stream.Next | planet-logic.ts:144-150 | one call returns the draw of the current state, a number in [0, 1), and advances the state by the Weyl constant |
| SeededStream.Replay | planet-logic.ts:137-150 | two streams made from the same string return the same numbers, namely `Draws(InitialSeed(str), n)` |
| SeededStream.DrawsAt | planet-logic.ts:144-150 | call `i` of a stream returns the draw made in the state reached after `i` calls |
| SeededStream.SourceIsDraws | planet-logic.ts:144-150 | the unbounded view of a stream returns numbers in [0, 1) and agrees with its first `n` calls |
| Color.RgbToHsl | planet-logic.ts:102-114 | for channels in [0, 1] the hue is in [0, 360) and saturation and lightness in [0, 100] |
| Color.HexToHsl | planet-logic.ts:98-115 | the hue, saturation and lightness of a hex colour lie in those ranges |
| Color.HslToHexWellFormed | planet-logic.ts:117-126 | for saturation and lightness in [0, 100] the output is `#` and six lower-case hex digits |
| Color.RgbHslRoundTrip | planet-logic.ts:98-126 | over exact arithmetic `hslToHex`'s channel function gives back the red, green and blue that `hexToHSL` started from |
| Color.HexRoundTrip | planet-logic.ts:98-126 | `hslToHex(hexToHSL(hex))` is `hex` for every lower-case six-digit colour |
| Color.ShiftHsl | planet-logic.ts:129-133 | lightness clamped to [6, 95], saturation to [0, 100], hue wrapped into [0, 360); unclamped values are the plain sums |
| Color.HueWrap | planet-logic.ts:132-133 | JavaScript's `%` keeps the sign of the dividend, so one `+ 360` brings every hue into [0, 360) |
| Color.ArtColor | planet-logic.ts:128-135 | the output is always a well-formed lower-case hex colour |
| Color.ArtColorZeroShift | planet-logic.ts:128-135 | `artColor` with no shift returns a lower-case colour unchanged when its lightness is in [6, 95] |
| Catalog.FilterSolids | planet-logic.ts:189-192 | keeps exactly the solids that are not ice above their melting point |
| Catalog.FilterLiquids | planet-logic.ts:205 | keeps exactly the liquids whose freezing point is below the base temperature |
| Catalog.ValidSolidsNonEmpty | planet-logic.ts:189-196 | the real table always leaves a rock to pick |
| Catalog.CatalogWellFormed | planet-logic.ts:54-95 | every colour in both tables is a hex colour, every roughness is in [0.4, 1.5], and so is the "Scorched Crust" fallback |
| Planet.PickIndex | planet-logic.ts:195 | `Math.floor(r * n)` is a valid index |
| Planet.TemperaturesAt | planet-logic.ts:177-184 | five draws, six with the jump; the base is the first draw scaled to [-150, 300), plus the jump draw when the gate draw exceeds 0.92, minus 150 when the cold-gate draw (third from last) is below 0.12, so in [-300, 4798]; the last two draws set the equator offset (20 to 69) and the pole offset (40 to 119) |
| Planet.DrawTemperatures | planet-logic.ts:177-184 | the statements of the temperature step compute exactly `TemperaturesAt` from the same call |
| Planet.PickedSolid | planet-logic.ts:189-196 | the solid at index `floor(r * n)` of the `n` allowed solids for the draw `r`, an allowed solid of the table; the "Scorched Crust" fallback when none is allowed |
| Planet.SurfaceAt | planet-logic.ts:189-203 | one draw, or none when no solid is allowed; the picked solid, renamed "Molten ..." and recoloured by `artColor(color, 25, 15, 5)` exactly when the base exceeds three times its melting point in kelvin, otherwise unchanged |
| Planet.PickSolid | planet-logic.ts:189-203 | the statements of the solid step compute exactly `SurfaceAt` from the same call |
| Planet.PickedLiquid | planet-logic.ts:205-214 | the liquid at index `floor(r * n)` of the `n` liquids above their freezing point, for the draw `r` |
| Planet.OceanAt | planet-logic.ts:205-238 | no liquid, no draw, cloud `#a1a1aa` exactly when none is above its freezing point; otherwise one draw and the picked liquid: sediment above three times its boiling point in kelvin (recoloured by `artColor(color, -40, -30)`, tagged "Dry", cloud `#59544f`, contribution 0.8), boiling above it (0.4), liquid below (0.1), each with its ocean name |
| Planet.PickLiquid | planet-logic.ts:205-238 | the statements of the liquid step compute exactly `OceanAt` from the same call |
| Planet.AtmosphereAt | planet-logic.ts:240-260 | vacuum of density 0 after one draw exactly when the gate draw is at most 0.2; sediment: a second and third draw, density `0.9 + 0.1 r` in [0.9, 1), "Dense Vaporized" and the liquid's name; otherwise two draws, density `clamp(0.3 r + contribution)`, named "Trace Gases" below 0.05 and by density word and gas above |
| Planet.DrawAtmosphere | planet-logic.ts:240-260 | the statements of the atmosphere step compute exactly `AtmosphereAt` from the same call |
| Planet.LifeOf | planet-logic.ts:262-275 | life exactly on a liquid ocean that is Water or Salt Water in (-15, 60) or on a silicon crust in (200, 1000), with the matching type, colour and range, and the base temperature strictly inside that range |
| Planet.LatForTempRange | planet-logic.ts:277 | a temperature between the pole and the equator maps to a latitude in [0, 1] |
| Planet.LatForTempInverse | planet-logic.ts:277 | the latitude map is inverted by linear interpolation from the equator to the pole |
| Planet.LatForTempAntitone | planet-logic.ts:277 | warmer temperatures lie at smaller latitudes |
| Planet.LatFreezeIsFreezingPoint | planet-logic.ts:279 | for a non-zero freezing point the freeze latitude is where the temperature equals it, inside [0, 1] when it lies between pole and equator |
| Planet.LatBoilIsBoilingPoint | planet-logic.ts:278-281 | except for sediment, the boil latitude is where the temperature equals the boiling point |
| Planet.ZeroFreezeUsesSentinel | planet-logic.ts:279 | Water and Slime freeze at 0, so `freeze \|\| 9998` sends their freeze latitude far below the pole, not to the 0 degree line |
| Planet.DrawWater | planet-logic.ts:283-286 | the statements of the water step compute exactly `WaterAt` from the same call |
| Planet.WaterAt | planet-logic.ts:283-286 | one draw, scaled to 0 to 14 without an ocean or with sediment and to 30 to 69 otherwise; with life a second draw that replaces it, 45 to 64 |
| Planet.DrawOrientation | planet-logic.ts:296-300 | tilt in [0, 45), rings exactly when the draw is below 0.1, roughness the solid's roughness times a factor in [0.5, 1.5) |
| Planet.RoughnessRange | planet-logic.ts:300 | terrain roughness lies in [0.2, 2.25) |
| Planet.DrawMaterials | planet-logic.ts:177-238 | the temperature, solid and liquid statements compute exactly `MaterialsAt` |
| Planet.MaterialsAt | planet-logic.ts:177-238 | the temperatures from the first call, the crust after them, the ocean after the crust; 5 to 8 draws, counted by the jump, the solid draw and the liquid draw; the temperature, solid and liquid rules hold |
| Planet.PlanetFrom | planet-logic.ts:240-301 | the second half of the description keeps the materials it is given and carries their temperatures, solid, liquid, names and cloud colour |
| Planet.FinishPlanet | planet-logic.ts:240-301 | the statements after the liquid step compute exactly `PlanetFrom` |
| Planet.GeneratePlanetData | planet-logic.ts:176-302 | the whole generator computes exactly `PlanetAt`: `MaterialsAt` followed by `PlanetFrom` on the call it leaves |
| Planet.PlanetDrawsUsed | planet-logic.ts:176-302 | 10 to 16 draws, counted by the jump, solid, liquid, atmosphere, sediment and life draws; the last three give the tilt (`45 r`, in [0, 45)), the rings (draw below 0.1) and the terrain roughness (in [0.2, 2.25)) |
| Planet.PlanetMaterials | planet-logic.ts:176-281 | the planet carries materials that follow the temperature, solid and liquid rules; its latitudes are those of its liquid; all its colours are well formed |
| Planet.PlanetSteps | planet-logic.ts:176-286 | every field comes from its step in draw order: temperatures, crust, ocean, atmosphere and water coverage |
| Planet.PlanetAtmosphere | planet-logic.ts:240-260 | vacuum exactly when the gate draw after the materials is at most 0.2; the density ranges per liquid state; "Trace Gases" below 0.05 and density word and gas above |
| Planet.PlanetLife | planet-logic.ts:262-286 | life exactly on a habitable liquid world, inside its range; the water coverage ranges with and without life |
| Planet.PlanetBaseFreq | planet-logic.ts:298 | `baseFreq = 0.006 - roughness * 0.00225`, in [0.002625, 0.0051] |
| Palette.GeneratePalette | planet-logic.ts:304-315 | seven hex colours, the crust colour in the middle and an `artColor` shade of it at every other position |
| Palette.PaletteIsShades | planet-logic.ts:304-315 | for a crust colour of moderate lightness all seven entries are shades, the middle one the zero shift |
| Clouds.DriftBounded | planet-logic.ts:337-347 | the damped random walk of the spine stays within 9.5 |
| Clouds.SpineEnds | planet-logic.ts:334-341 | the spine runs from `xOffset - width / 2` to `xOffset + width / 2` |
| Clouds.SpinePointNearCurve | planet-logic.ts:341-348 | every spine point lies within 9.5 of the sphere curve |
| Clouds.CloudSpine | planet-logic.ts:331-351 | 61 points, one draw each, each the walk's point, within 9.5 of the curve, from the left end to the right end |
| Clouds.SpineStep | planet-logic.ts:341-348 | one pass of the spine loop gives the walk's point `i` and the walk after `i + 1` steps |
| Clouds.ThicknessRange | planet-logic.ts:371-372 | after the first point the thickness is at least 5 and grows less than 1 per point |
| Clouds.EdgesMirror | planet-logic.ts:376-377 | the upper and lower edges are mirror images through the spine |
| Clouds.Outline | planet-logic.ts:380-384 | the path moves to the first upper point, lines along the upper edge, back along the lower edge, and closes |
| Clouds.CloudShape | planet-logic.ts:353-385 | nothing and no draw below three points; otherwise two draws per point and the outline of both edges, of length `2n + 1` |
| Clouds.SubLengthRange | planet-logic.ts:410-412 | a layer's slice is never longer than its spine |
| Clouds.StartRange | planet-logic.ts:413-414 | the slice start lies within the slack, so the slice stays in the spine |
| Clouds.FullSpineSlice | planet-logic.ts:410-411 | on a 61-point spine every slice has at least 24 points |
| Clouds.LayerFill | planet-logic.ts:435-436 | every layer colour is a lower-case hex colour |
| Clouds.StackLayer | planet-logic.ts:409-443 | one layer: two draws, plus two per point when its slice has at least three points, and an element exactly then; the element has the cluster colour lightened by layer, opacity 0.6 and the next serial; on a full spine an outline of `2 * subLength + 1` commands |
| Clouds.FullStackDraws | planet-logic.ts:408-445 | on a 61-point spine the slices of layers 0 to 8 have 61, 56, 51, 46, 41, 36, 31, 26 and 24 points, so a stack of `n` layers makes the tabulated number of draws |
| Clouds.CreateStack | planet-logic.ts:408-445 | the draws of its layers, `StackDraws`, and at least two per layer; at most `layers + 1` elements, numbered on from `serial`; on a full spine exactly one per layer, in layer order |
| Clouds.StackStep | planet-logic.ts:409-443 | one pass of the stack loop keeps the count of draws and the numbering and order of the elements |
| Clouds.ClusterColor | planet-logic.ts:401-402 | the cluster colour is a well-formed hex colour |
| Clouds.LatitudeInZone | planet-logic.ts:394-395 | a cluster's latitude lies in the middle 80% of its zone, strictly inside the range |
| Clouds.SpineOnChord | planet-logic.ts:397-400 | the width is 20% to 90% of the chord and the offset keeps the spine on the chord |
| Clouds.Placement | planet-logic.ts:394-400 | three draws: the latitude `Latitude(c, count, r)` of the first, in the middle of its zone; `yBase = latPos * R`; the width and offset `SpineWidth`, `SpineCentre` of the next two, keeping the spine on the chord |
| Clouds.Sidecar | planet-logic.ts:450-456 | the sidecar goes right exactly when its draw exceeds 0.5, overlaps the main spine's end by 40, and spans 80 to 180 |
| Clouds.Cluster | planet-logic.ts:393-459 | `(main layers + 1) + (sidecar layers + 1)` elements, 8 to 13, both counts read from the calls `MainLayersCall` and `SidecarLayersCall` name; draws up to `ClusterEnd`; all of this cluster and colour, numbered on from `serial` |
| Clouds.ClusterDrawsRange | planet-logic.ts:393-459 | a cluster makes 991 to 1361 draws |
| Clouds.ClustersAppend | planet-logic.ts:391-441 | appending a cluster numbered from the current count keeps the elements numbered and in cluster order |
| Clouds.GenerateCloudPaths | planet-logic.ts:325-461 | no elements and no draws exactly when the density is below 0.1; otherwise the first draw picks three or four clusters, the draws run to `CloudsEnd`, and there are 24 to 52 elements, 8 to 13 per cluster, in their zones, with serials 0, 1, ... in cluster order |
| Clouds.NextCluster | planet-logic.ts:391-460 | one pass of the cluster loop appends a cluster and keeps the numbering, the zones and the draw count |
| Clouds.InZonesAppend | planet-logic.ts:394-395 | a latitude in the middle of the next zone extends latitudes that are in theirs |
| Clouds.CloudsDrawsRange | planet-logic.ts:391-460 | `n` clusters make 991 to 1361 draws each |
| Rings.Pair | planet-logic.ts:492-493 | every ring is a back half over 180-360 and a front half over 0-180 with the same stroke, width and opacity |
| Rings.PairedConcat | planet-logic.ts:474-551 | joining two lists of back/front pairs gives a list of pairs |
| Rings.SimpleStrokes | planet-logic.ts:490 | both simple-ring colours are lower-case hex colours |
| Rings.SimpleRingsShape | planet-logic.ts:479-494 | `n` simple rings are `2n` elements in pairs, ring `i` at radius `600 + 20 i` with the alternating colour and keys `s-back-i`, `s-front-i` |
| Rings.SimpleRings | planet-logic.ts:479-494 | the loop draws 16 numbers and builds the eight simple rings |
| Rings.RingPalette | planet-logic.ts:499-501 | four hex colours |
| Rings.BaseOpacityBound | planet-logic.ts:525 | a particle's base opacity is in [0, 0.24) |
| Rings.RadiusInBands | planet-logic.ts:522 | a particle radius lies between 540 and 825 |
| Rings.RingParticles | planet-logic.ts:518-536 | the nested band loops compute exactly `ParticlesUpTo` over the 430 slots; at most 430 pairs, each a particle with a palette colour, an opacity of at least 0.04, a width in [1, 4.5) and a radius inside the bands; 3 to 5 draws per slot |
| Rings.ParticleSlot | planet-logic.ts:521-534 | one slot of the loop computes exactly `ParticleStep` |
| Rings.ParticleKept | planet-logic.ts:521-534 | a slot adds a pair exactly when its opacity (base opacity plus a tenth of the wave) reaches 0.04 and leaves the elements alone otherwise; the pair has that opacity and the keys `c-back-<pIdx>`, `c-front-<pIdx>` |
| Rings.ParticleStepShape | planet-logic.ts:521-534 | one slot adds at most one particle pair and makes three to five draws |
| Rings.ParticlesShape | planet-logic.ts:518-536 | after `n` slots: two elements per pair, at most `n` pairs, all particles, 3 to 5 draws per slot |
| Rings.SpecialFeatures | planet-logic.ts:538-549 | the loop computes exactly `FeaturesUpTo` for the count `floor(3 r)` of its first draw, `2 * count` elements after `1 + 4 * count` draws; each a back/front pair with the feature colour, opacity in [0.7, 0.9) and a radius inside the bands |
| Rings.FeatureSpecial | planet-logic.ts:540-548 | both halves of a feature have the feature colour, a width in [2, 4), an opacity in [0.7, 0.9) and a radius inside the bands |
| Rings.FeaturesShape | planet-logic.ts:539-549 | `n` features are `2n` elements in back/front pairs, all special |
| Rings.FeatureStroke | planet-logic.ts:543 | the feature colour is a lower-case hex colour |
| Rings.ComplexRingsConcat | planet-logic.ts:518-551 | particles followed by features form the complex ring list |
| Rings.GenerateRingPaths | planet-logic.ts:473-552 | always back/front pairs; above the 0.2 gate the eight simple rings after 17 draws; otherwise exactly `ComplexRingsAt` on the ring palette and feature colour, the particles and then the features |
| Rings.ComplexRingPaths | planet-logic.ts:498-551 | the complex branch computes exactly `ComplexRingsAt`: perspective from the second draw, the 430 particle slots from the third, then the features; 1293 to 2161 draws |
| Text.DecimalValue | planet-logic.ts:492-493 | the decimal text of an index reads back as that index |
| Text.DecimalInjective | planet-logic.ts:492-493 | distinct indices print as distinct texts |
| Text.PrefixedDecimalInjective | planet-logic.ts:492-493 | two keys with the same prefix and different indices differ |
| Rings.SimpleKeysDistinct | planet-logic.ts:492-493 | the sixteen simple-ring keys are pairwise distinct |
| Geology.ArcCount | planet-logic.ts:558 | the count is the ceiling of `8 * roughness` |
| Geology.ArcFacts | planet-logic.ts:558-561 | at least five arcs above roughness 0.5; each arc spans less than one radian of longitude, with latitudes in [-1, 1) |
| Geology.TraceArc | planet-logic.ts:563-578 | the loop over the 13 samples builds the arc's path |
| Geology.ArcPathShape | planet-logic.ts:563-578 | a path holds only visible samples, every command after the first is a line, and it starts with a move exactly when the first sample is visible |
| Geology.GeologyPathsShape | planet-logic.ts:559-580 | at most one path per arc, and none empty |
| Geology.GenerateGeologyPaths | planet-logic.ts:555-583 | no paths and no draws at roughness 0.5 or below; otherwise four draws per arc and the non-empty arc paths in order |
| Layers.CumulativeStops | planet-logic.ts:586-597 | the loop's stops are the initial gap times the geometric partial sums with ratio 1.08 |
| Layers.GenerateLayerThresholds | planet-logic.ts:585-600 | no thresholds (the `[NaN]` case) exactly for a count of at most 1; otherwise the thresholds |
| Layers.ThresholdsShape | planet-logic.ts:598-599 | `count` thresholds, strictly increasing from 0.08 to 0.83, independent of the initial gap |
| Layers.NormaliseScaled | planet-logic.ts:586-599 | normalising by the last stop cancels the gap factor |

## Left out

- `createLensDataURI` builds a canvas image and is not part of this model. `App.tsx` is not part of this model either.
- `Math.sin`, `Math.cos`, `Math.sqrt` and `Math.pow` are parameters.
  - The cloud generator takes a `Geometry` of `sqrt`, `sin(x * PI)` and `pow`.
  - The rings take the particle wave `Math.sin(progress * PI * f)` as a function assumed to lie in [-1, 1].
  - The geology projection is a `visible` predicate on each sample; the projected coordinates themselves are not computed.
- Path strings and `toFixed(1)` text are kept as command lists: arcs by radius and angles, cloud outlines by points. Element keys are kept as their numbers, except in the rings, which print them in decimal.
- IEEE doubles are exact rationals. Rounding errors of `/`, `*`, `Math.round` and `% 12` are not modelled.
- The generators accept any `rng` whose numbers lie in [0, 1); the seeded stream is one such source.
- The material tables are parameters of `Planet.GeneratePlanetData`, and `Catalog.CatalogWellFormed` shows the real tables meet its requirements.
- Layers.GenerateLayerThresholds: a count of at most 1 gives `[NaN]` in the source (0 / 0). It is `None` here.
- Clouds.GenerateCloudPaths: the latitudes of the clusters are a ghost result, as the source does not return them. They colour the layers and place each spine at `yBase = latPos * R` (planet-logic.ts:396); `Clouds.Placement` states that placement.
- Clouds.CreateStack: the exact number of elements is stated for 61-point spines only, the one length the source passes; for other lengths it is only bounded.
- Rings.GenerateRingPaths: the simple-ring and feature colours are computed once, before the loops. The source recomputes the same value inside each iteration.
- Planet.GeneratePlanetData: the "None" liquid's `#000` colour is not a six-digit colour. Nothing in planet-logic.ts passes it to `artColor`, and neither does the model. `App.tsx` does pass `data.liquid.color` to `artColor` (App.tsx:212); `App.tsx` is not part of this model.

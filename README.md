# GeoGen tectonic terrain core in Dafny

This project models the plate-and-terrain field of GeoGen, a Minecraft world generator, and proves
properties of it. The world is split into plates by a jittered-grid Voronoi lookup. Each grid cell
of 2048 blocks holds one potential plate centre. A coordinate belongs to the plate whose centre,
among the nine cells around it, is the nearest one. On a tie the first cell scanned wins.

- Plates get an integer id `cellX * 31 + cellZ`. They are generated on first use and kept in a
  cache keyed by id.
- A plate has an age, a base elevation, a movement direction and a speed. Its crust is oceanic or
  continental, by a threshold on `age² · ((elevation + 1) / 2)^1.5`.
- The distance to the nearest plate boundary is found by sampling a 17×17 grid of points 64 blocks
  apart around the query point.
- The terrain height adds the base elevation, a crust modifier, a centre-proximity term and a
  boundary uplift.
- The tectonic density function turns that height into a signed density. The boundary density
  function turns the boundary distance into a strength in [0, 1].
- The chunk generator fills each chunk column with rock wherever the density is positive. The rock
  type depends on depth and crust. It lays a surface block and up to three subsurface blocks on top
  of each column. It also reports a clamped base height and a whole column of blocks.

Modules, one per source file, plus three shared ones:

- `Wrappers`: `Option`. `None` stands for the `Double.MAX_VALUE` "no boundary found" sentinel.
- `JavaMath`: Java `int` and `long` arithmetic written out explicitly:
  - 32-bit wrap-around;
  - the saturating `(int)` cast of a double;
  - `long` xor;
  - truncating `/` and `%`;
  - `Math.max`, `Math.min` and clamp.
- `Foreign`: `Math.sqrt`, `Math.exp`, `Math.pow(·, 1.5)`, `RandomSource.nextDouble` and
  `SimplexNoise.getValue`. These are passed in as function values of a `Primitives` record, with
  their stated ranges as predicates.
- `CrustTypeEnum`, `PlateDataRecord`, `PlateSystemModel`, `TectonicDensity`,
  `PlateBoundaryDensity`, `TerrainPropertiesRecord`, `ChunkGeneration`.

How each kind of source code is modelled:

- Doubles are modelled as `real`.
- Pure code becomes functions with lemmas.
- Code that changes state becomes classes with methods:
  - `PlateSystem` keeps its cache as a `map<int, PlateData>` field.
  - A chunk keeps its written blocks as a `map` field.
  - `getBaseColumn` fills an `array`.
- Every method is proved against a specification function, and the lemmas are about those functions.

Where the code and its comments or documentation disagree, the model follows the code:

- **Plate ids alias.** The id is called unique and reversible, but `(0, 31)` and `(1, 0)` both give 31.
  Decoding with truncating `/` and `%` returns the original cell exactly when the cell satisfies
  `Invertible`: either `cellX >= 0` and `0 <= cellZ < 31`, or `cellX <= 0` and `-31 < cellZ <= 0`.
  So negative cells such as (-1, -5) also round-trip, not only the non-negative range.
- **A generated plate's centre is not the Voronoi centre.** `generatePlateData` seeds its random
  stream with `seed ^ id * 1234567`, while the lookup seeds each cell with
  `seed ^ x * 374761393 ^ z * 668265263`. So the centre of a generated plate is only known to lie
  within 1024 of the corner of the cell its id decodes to.
- **Reads change the cache.** `getPlateAt`, and every operation built on it, mutates the cache.
- **The boundary distance may exceed the search radius.** It is either the radius 512 or lies in
  [64, 512·√2]. It is never below 64, and the bound allows values above 512: a differing sample
  found only in a corner of the grid is returned even when it is farther than 512.
- **The declared density range does not hold everywhere.** The tectonic density is declared to
  lie in [-64, 64]. With the default surface level and a height scale in (0, 1], it is proved for
  y in [-523, 667], which contains the build range [-64, 320). Far outside that it fails: at
  y = 1000 the density is below -64 at every column.
- **Full boundary strength is never reached.** The boundary strength is declared to reach 1, but
  with the default threshold it never exceeds 0.75. A threshold of 0, which the codec accepts,
  gives strength 0 everywhere. A negative threshold would give strengths above 1; no lemma covers it.
- **The base height omits the uplift.** `getBaseHeight` leaves out the boundary uplift that the
  density function's height includes.

## Model

| member | source | states |
|---|---|---|
| CrustTypeEnum.CrustConstants | src/main/java/com/geogen/worldgen/plates/CrustType.java:4-19 | the getters return OCEANIC = (0.8, 2.9, -0.3) and CONTINENTAL = (0.4, 2.7, 0.2) for density, specific gravity and elevation modifier |
| CrustTypeEnum.CrustType.Density | src/main/java/com/geogen/worldgen/plates/CrustType.java:17 | models `getDensity`; CrustConstants gives its two values |
| CrustTypeEnum.CrustType.SpecificGravity | src/main/java/com/geogen/worldgen/plates/CrustType.java:18 | models `getSpecificGravity`; CrustConstants gives its two values |
| CrustTypeEnum.CrustType.ElevationModifier | src/main/java/com/geogen/worldgen/plates/CrustType.java:19 | models `getElevationModifier`; CrustConstants and ElevationModifierSigns state its values and signs |
| CrustTypeEnum.ExactlyTwoCrustTypes | src/main/java/com/geogen/worldgen/plates/CrustType.java:3-5 | every crust type is oceanic or continental, and the two are distinct |
| CrustTypeEnum.OceanicIsDenser | src/main/java/com/geogen/worldgen/plates/CrustType.java:4-5 | oceanic crust has the higher density and the higher specific gravity |
| CrustTypeEnum.ElevationModifierSigns | src/main/java/com/geogen/worldgen/plates/CrustType.java:4-5 | the oceanic elevation modifier is negative and the continental one positive |
| PlateDataRecord.DetermineCrustType | src/main/java/com/geogen/worldgen/plates/PlateData.java:26-33 | continental exactly when age² · ((elevation+1)/2)^1.5 > 0.3, oceanic exactly when it is at most 0.3 |
| PlateDataRecord.ContinentalProbability | src/main/java/com/geogen/worldgen/plates/PlateData.java:28-31 | models the product age² · pow((elevation + 1) / 2, 1.5); DetermineCrustType thresholds it and CrustTypeMonotone shows it never falls as age or elevation rise |
| PlateDataRecord.SquaredOffset | src/main/java/com/geogen/worldgen/plates/PlateData.java:36-38 | models dx² + dz² from the centre; DistanceToCenter squares to it |
| PlateDataRecord.NewPlateData | src/main/java/com/geogen/worldgen/plates/PlateData.java:14-24 | every getter returns its constructor argument, and the crust type is the one classified from age and elevation at construction |
| PlateDataRecord.CrustTypeDependsOnlyOnAgeAndElevation | src/main/java/com/geogen/worldgen/plates/PlateData.java:23-33 | two plates with equal age and base elevation have the same crust type |
| PlateDataRecord.CrustTypeExtremes | src/main/java/com/geogen/worldgen/plates/PlateData.java:28-32 | age 0 or elevation -1 gives oceanic crust; age 1 with elevation 1 gives continental crust |
| PlateDataRecord.CrustTypeMonotone | src/main/java/com/geogen/worldgen/plates/PlateData.java:28-32 | within age [0,1] and elevation [-1,1], raising either never turns continental crust oceanic |
| PlateDataRecord.DistanceToCenter | src/main/java/com/geogen/worldgen/plates/PlateData.java:35-39 | with an exact square root the distance is non-negative and its square is dx² + dz² |
| PlateDataRecord.DistanceAtCentreIsZero | src/main/java/com/geogen/worldgen/plates/PlateData.java:35-39 | the distance from the centre to itself is 0 |
| PlateDataRecord.DistanceDependsOnSquaredOffset | src/main/java/com/geogen/worldgen/plates/PlateData.java:35-39 | points with the same dx² + dz² are at the same distance |
| PlateSystemModel.GridCell | src/main/java/com/geogen/worldgen/plates/PlateSystem.java:46-47 | the cell is a Java int (the cast saturates) |
| PlateSystemModel.GridCellContains | src/main/java/com/geogen/worldgen/plates/PlateSystem.java:46-47 | unless the cast saturates, the cell's span of 2048 contains the coordinate |
| PlateSystemModel.CandidateIsNeighbour | src/main/java/com/geogen/worldgen/plates/PlateSystem.java:49-52 | away from the int bounds, the candidate for offset (dx, dz) is the cell (gridX+dx, gridZ+dz) |
| PlateSystemModel.CandidateIsSomeNeighbour | src/main/java/com/geogen/worldgen/plates/PlateSystem.java:49-52 | each of the nine candidates is a neighbouring cell at offsets in {-1,0,1} |
| PlateSystemModel.NearestPlateIdIsNeighbourCell | src/main/java/com/geogen/worldgen/plates/PlateSystem.java:45-74 | the returned id is cx·31 + cz for a cell (cx, cz) at offsets in {-1,0,1} from the query point's cell |
| PlateSystemModel.NearestPlateId | src/main/java/com/geogen/worldgen/plates/PlateSystem.java:39-75 | models `findNearestPlateId`: the id of the first nearest of the nine candidates, an int; NearestCandidate, ScanFindsNearest and NearestPlateIdIsNeighbourCell state what it picks |
| PlateSystemModel.Distance | src/main/java/com/geogen/worldgen/plates/PlateSystem.java:65 | models `Math.sqrt(dx*dx + dz*dz)` from the query point to a centre |
| PlateSystemModel.CandidateDistance | src/main/java/com/geogen/worldgen/plates/PlateSystem.java:51-65 | the distance from the query point to the k-th candidate's jittered centre |
| PlateSystemModel.CandidateId | src/main/java/com/geogen/worldgen/plates/PlateSystem.java:51-69 | the id of the k-th candidate cell |
| PlateSystemModel.PlateIdOf | src/main/java/com/geogen/worldgen/plates/PlateSystem.java:69 | the id is an int and equals cellX·31 + cellZ whenever that fits in an int |
| PlateSystemModel.PlateIdOfTwoSteps | src/main/java/com/geogen/worldgen/plates/PlateSystem.java:69 | wrapping the product and then the sum gives the same id as wrapping once |
| PlateSystemModel.InverseCell | src/main/java/com/geogen/worldgen/plates/PlateSystem.java:82-83 | the decoded cell re-encodes to the id, and its second coordinate lies strictly between -31 and 31 |
| PlateSystemModel.InverseCellInvertible | src/main/java/com/geogen/worldgen/plates/PlateSystem.java:82-83 | every decoded cell lies in the invertible range |
| PlateSystemModel.InvertibleCellsUnique | src/main/java/com/geogen/worldgen/plates/PlateSystem.java:82-83 | two invertible cells with the same id are the same cell |
| PlateSystemModel.PlateIdRoundTrip | src/main/java/com/geogen/worldgen/plates/PlateSystem.java:82-83 | decoding the id gives back the cell if and only if the cell is invertible |
| PlateSystemModel.PlateIdAliases | src/main/java/com/geogen/worldgen/plates/PlateSystem.java:69 | (cx, cz+31) and (cx+1, cz) always get the same id |
| PlateSystemModel.PlateIdCollisionExample | src/main/java/com/geogen/worldgen/plates/PlateSystem.java:69 | (0, 31) and (1, 0) both get id 31, which decodes to (1, 0) |
| PlateSystemModel.JitterRange | src/main/java/com/geogen/worldgen/plates/PlateSystem.java:59-60 | an offset drawn from [0,1) lies in [-1024, 1024) |
| PlateSystemModel.CellSeed | src/main/java/com/geogen/worldgen/plates/PlateSystem.java:55-57 | models the per-cell seed `seed ^ x*374761393L ^ z*668265263L` in long arithmetic |
| PlateSystemModel.PlateSeed | src/main/java/com/geogen/worldgen/plates/PlateSystem.java:79 | models the per-plate seed `seed ^ plateId*1234567L`, which differs from the cell seed |
| PlateSystemModel.Jitter | src/main/java/com/geogen/worldgen/plates/PlateSystem.java:59-60 | models the k-th offset `nextDouble() * 2048 - 1024`; JitterRange bounds it |
| PlateSystemModel.JitteredCentre | src/main/java/com/geogen/worldgen/plates/PlateSystem.java:59-63 | models the centre `cell * 2048 + offset` on both axes; JitteredCentreNearOrigin bounds it |
| PlateSystemModel.CellOrigin | src/main/java/com/geogen/worldgen/plates/PlateSystem.java:62-63 | the cell's corner is cell·2048 whenever the int product does not wrap |
| PlateSystemModel.JitteredCentreNearOrigin | src/main/java/com/geogen/worldgen/plates/PlateSystem.java:55-63 | each jittered centre lies in [cell·2048 - 1024, cell·2048 + 1024) on both axes |
| PlateSystemModel.FirstMinIndex | src/main/java/com/geogen/worldgen/plates/PlateSystem.java:65-70 | the index a strict-`<` scan keeps is a minimum, and every earlier entry is strictly larger |
| PlateSystemModel.FirstMinIndexUnique | src/main/java/com/geogen/worldgen/plates/PlateSystem.java:65-70 | the first minimum is the only index that is both a minimum and strictly below all earlier entries |
| PlateSystemModel.NearestCandidate | src/main/java/com/geogen/worldgen/plates/PlateSystem.java:49-74 | the chosen candidate's centre is no farther than any of the nine, and strictly nearer than every candidate before it in dx-outer, dz-inner order |
| PlateSystemModel.ScanStep | src/main/java/com/geogen/worldgen/plates/PlateSystem.java:65-70 | one strict-`<` update step extends the scan invariant by one candidate |
| PlateSystemModel.ScanFindsNearest | src/main/java/com/geogen/worldgen/plates/PlateSystem.java:39-75 | the nearest id is the id of the first minimum of the nine candidate distances |
| PlateSystemModel.PlateSystem.FindNearestPlateId | src/main/java/com/geogen/worldgen/plates/PlateSystem.java:39-75 | the nested loop returns the id of the first strictly nearest jittered centre |
| PlateSystemModel.PlateSystem.VisitCell | src/main/java/com/geogen/worldgen/plates/PlateSystem.java:51-70 | visiting one candidate cell extends the first-minimum invariant by that cell |
| PlateSystemModel.PlateSystem.VisitCandidate | src/main/java/com/geogen/worldgen/plates/PlateSystem.java:55-70 | one derived candidate's distance and id are folded into the scan |
| PlateSystemModel.PlateSystem.KeepNearer | src/main/java/com/geogen/worldgen/plates/PlateSystem.java:67-70 | the best is replaced exactly when the new distance is strictly smaller |
| PlateSystemModel.PlateSystem.CellDistance | src/main/java/com/geogen/worldgen/plates/PlateSystem.java:55-65 | the distance from the query point to the cell's jittered centre, drawn from the cell's own stream |
| PlateSystemModel.PlateSystem.CandidateCellDistance | src/main/java/com/geogen/worldgen/plates/PlateSystem.java:55-65 | the distance computed for the k-th cell is the k-th candidate distance |
| PlateSystemModel.GeneratePlateData | src/main/java/com/geogen/worldgen/plates/PlateSystem.java:77-103 | the plate carries the requested id and a crust type classified from its age and elevation |
| PlateSystemModel.GeneratedPlateRanges | src/main/java/com/geogen/worldgen/plates/PlateSystem.java:93-100 | age lies in [0,1], elevation in [-1,1], direction in [0, 2π) and speed in [0.1, 1.0) |
| PlateSystemModel.GeneratedCentreNearInverseCell | src/main/java/com/geogen/worldgen/plates/PlateSystem.java:79-90 | the generated centre lies within 1024 of the corner of the decoded cell; it is not claimed to be the Voronoi centre |
| PlateSystemModel.PlateAt | src/main/java/com/geogen/worldgen/plates/PlateSystem.java:32-37 | the plate's id is the nearest plate id of the point, and the plate is well formed |
| PlateSystemModel.PlateDependsOnlyOnId | src/main/java/com/geogen/worldgen/plates/PlateSystem.java:32-37 | two points with the same nearest id get the same plate |
| PlateSystemModel.PlateSystem.constructor | src/main/java/com/geogen/worldgen/plates/PlateSystem.java:21-27 | a new plate system has the given seed and an empty cache |
| PlateSystemModel.PlateSystem.GetPlateAt | src/main/java/com/geogen/worldgen/plates/PlateSystem.java:32-37 | returns the generated plate of the nearest id. The cache gains exactly that key; when the key was already present the cache is unchanged, since cached plates are the generated ones (the class invariant). Every other entry keeps its value |
| PlateSystemModel.SampleOffset | src/main/java/com/geogen/worldgen/plates/PlateSystem.java:113-117 | each sample offset lies in [-512, 512] on both axes and is a multiple of 64 |
| PlateSystemModel.SampleIndex | src/main/java/com/geogen/worldgen/plates/PlateSystem.java:113-117 | indexes the 289 sample offsets |
| PlateSystemModel.SampleRowColumn | src/main/java/com/geogen/worldgen/plates/PlateSystem.java:116-117 | row i and column j of the 17×17 grid address sample 17i + j and back |
| PlateSystemModel.SampleAt | src/main/java/com/geogen/worldgen/plates/PlateSystem.java:116-117 | sample 17i + j is the offset (-512 + 64i, -512 + 64j) |
| PlateSystemModel.SamplesEnumerateGrid | src/main/java/com/geogen/worldgen/plates/PlateSystem.java:113-117 | the 289 samples are exactly the offsets in {-512, -448, …, 512}², each one once |
| PlateSystemModel.PlateLookupIsPlateLookup | src/main/java/com/geogen/worldgen/plates/PlateSystem.java:109-118 | the lookup used by the boundary scan is the nearest-plate-id function |
| PlateSystemModel.MinWith | src/main/java/com/geogen/worldgen/plates/PlateSystem.java:121 | `Math.min` of the running minimum and a new distance |
| PlateSystemModel.MinDiffering | src/main/java/com/geogen/worldgen/plates/PlateSystem.java:116-124 | models the fold of the two loops: the running minimum over samples on another plate, None for the MAX_VALUE sentinel; MinDifferingIsMinimum characterises it |
| PlateSystemModel.SampleSquaredDistance | src/main/java/com/geogen/worldgen/plates/PlateSystem.java:120 | the exact integer dx² + dz² of a sample offset; SampleSquaredDistanceBounds bounds it |
| PlateSystemModel.SampleDistance | src/main/java/com/geogen/worldgen/plates/PlateSystem.java:120 | models `Math.sqrt(dx*dx + dz*dz)` of a sample offset; SampleDistanceBounds bounds it |
| PlateSystemModel.SampleDiffers | src/main/java/com/geogen/worldgen/plates/PlateSystem.java:118-119 | whether the sample's plate id differs from the query point's; CentreSampleNeverDiffers rules out the centre |
| PlateSystemModel.BoundaryDistance | src/main/java/com/geogen/worldgen/plates/PlateSystem.java:108-127 | models `getDistanceToBoundary`: 512 when no sample differs, else the fold's minimum; BoundaryDistanceIsNearestDiffering and BoundaryDistanceRange state its properties |
| PlateSystemModel.MinDifferingIsMinimum | src/main/java/com/geogen/worldgen/plates/PlateSystem.java:116-126 | the fold is empty exactly when no sample differs; otherwise it is a differing sample's distance and no larger than any of them |
| PlateSystemModel.SampleDistances | src/main/java/com/geogen/worldgen/plates/PlateSystem.java:120 | the 289 distances √(dx² + dz²) of the sample offsets |
| PlateSystemModel.SamplesDiffering | src/main/java/com/geogen/worldgen/plates/PlateSystem.java:118-119 | for each sample, whether its plate id differs from the query point's |
| PlateSystemModel.CentreSampleNeverDiffers | src/main/java/com/geogen/worldgen/plates/PlateSystem.java:116-119 | sample 144 is the offset (0, 0) and always lies on the query point's own plate |
| PlateSystemModel.SampleSquaredDistanceBounds | src/main/java/com/geogen/worldgen/plates/PlateSystem.java:120 | every sample off the centre has dx² + dz² in [4096, 524288] |
| PlateSystemModel.SampleDistanceBounds | src/main/java/com/geogen/worldgen/plates/PlateSystem.java:120 | every sample off the centre lies at a distance in [64, √524288] |
| PlateSystemModel.BoundaryDistanceIsNearestDiffering | src/main/java/com/geogen/worldgen/plates/PlateSystem.java:108-127 | 512 when no sample is on another plate; no larger than any sample on another plate; and, when some sample is on another plate, equal to the distance of one of them, so the least such distance even above 512 |
| PlateSystemModel.BoundaryDistanceOffCentre | src/main/java/com/geogen/worldgen/plates/PlateSystem.java:108-127 | a result other than 512 is the distance of a sample other than the centre |
| PlateSystemModel.BoundaryDistanceRange | src/main/java/com/geogen/worldgen/plates/PlateSystem.java:108-127 | the result is 512 or lies in [64, 512·√2], so it is never below 64 and may exceed 512 (the bound allows up to 512·√2) |
| PlateSystemModel.OffCentreDistanceRange | src/main/java/com/geogen/worldgen/plates/PlateSystem.java:120 | a distance of any off-centre sample lies in [64, √524288] |
| PlateSystemModel.BoundaryDistanceByLookup | src/main/java/com/geogen/worldgen/plates/PlateSystem.java:108-127 | the boundary distance computed with any function equal to the nearest-id lookup is the same |
| PlateSystemModel.PlateLookupsAgree | src/main/java/com/geogen/worldgen/plates/PlateSystem.java:109-118 | two functions that both equal the nearest-id lookup agree everywhere |
| PlateSystemModel.SamplesDifferingCongruent | src/main/java/com/geogen/worldgen/plates/PlateSystem.java:118-119 | agreeing lookups mark the same samples as differing |
| PlateSystemModel.PlateSystem.GetDistanceToBoundary | src/main/java/com/geogen/worldgen/plates/PlateSystem.java:108-127 | returns the nearest-differing-sample distance, or 512 for the sentinel; the cache only grows, with coherent entries |
| PlateSystemModel.PlateSystem.ScanGrid | src/main/java/com/geogen/worldgen/plates/PlateSystem.java:113-124 | the two loops compute the minimum distance over samples on another plate, or nothing |
| PlateSystemModel.PlateSystem.ScanRow | src/main/java/com/geogen/worldgen/plates/PlateSystem.java:117-123 | one row of 17 samples extends the running minimum by those samples |
| PlateSystemModel.PlateSystem.VisitSample | src/main/java/com/geogen/worldgen/plates/PlateSystem.java:118-122 | one sample is folded into the minimum exactly when its plate differs from the current one |
| TectonicDensity.DecodeSettings | src/main/java/com/geogen/worldgen/density/TectonicDensityFunction.java:14-20 | decoding fails exactly when the seed is missing; present fields are kept |
| TectonicDensity.CodecDefaults | src/main/java/com/geogen/worldgen/density/TectonicDensityFunction.java:17-18 | a record with only a seed decodes to surface level 64 and height scale 1 |
| TectonicDensity.CrustLift | src/main/java/com/geogen/worldgen/density/TectonicDensityFunction.java:64 | models the crust term `elevationModifier * 16` |
| TectonicDensity.CenterEffect | src/main/java/com/geogen/worldgen/density/TectonicDensityFunction.java:67-69 | models `exp(-d / 2048) * age * 8`; CenterEffectBounds bounds it |
| TectonicDensity.TerrainHeight | src/main/java/com/geogen/worldgen/density/TectonicDensityFunction.java:59-82 | models `calculateTerrainHeight` for a given boundary distance: surface level, elevation·32, crust lift, centre effect and uplift; TerrainHeightBounds bounds it |
| TectonicDensity.HeightAt | src/main/java/com/geogen/worldgen/density/TectonicDensityFunction.java:41-44 | models the height `compute` uses: the terrain height of the plate at (x, z) with its boundary distance; HeightAtBounds bounds it |
| TectonicDensity.CrustBias | src/main/java/com/geogen/worldgen/density/TectonicDensityFunction.java:50-54 | models the bias, +0.05 for oceanic and -0.02 for continental crust |
| TectonicDensity.UnscaledDensity | src/main/java/com/geogen/worldgen/density/TectonicDensityFunction.java:47-54 | models `(height - y) * 0.1` plus the bias |
| TectonicDensity.Density | src/main/java/com/geogen/worldgen/density/TectonicDensityFunction.java:47-56 | models the scaled density; DensityDecreasingInY and SolidIff state its shape |
| TectonicDensity.DensityAt | src/main/java/com/geogen/worldgen/density/TectonicDensityFunction.java:35-57 | models `compute` at block (x, y, z); DensityWithinDeclaredRange and DensityBelowDeclaredMinimum bound it |
| TectonicDensity.CenterEffectBounds | src/main/java/com/geogen/worldgen/density/TectonicDensityFunction.java:67-69 | with exp in (0, 1] on non-positive arguments and age in [0,1], the centre effect lies in [0, 8] |
| TectonicDensity.BoundaryEffect | src/main/java/com/geogen/worldgen/density/TectonicDensityFunction.java:72-79 | the uplift is positive exactly when the distance is below 256, is 0 from 256 on, and lies in (0, 12] for distances in [0, 256) |
| TectonicDensity.BoundaryEffectNonIncreasing | src/main/java/com/geogen/worldgen/density/TectonicDensityFunction.java:72-79 | a farther boundary never gives more uplift |
| TectonicDensity.BoundaryEffectAtSampleDistance | src/main/java/com/geogen/worldgen/density/TectonicDensityFunction.java:72-79 | at the smallest possible boundary distance 64 or beyond, the uplift is at most 9 |
| TectonicDensity.TerrainHeightBounds | src/main/java/com/geogen/worldgen/density/TectonicDensityFunction.java:59-82 | for elevation in [-1,1], age in [0,1] and a non-negative boundary distance, the height lies in [surfaceLevel - 36.8, surfaceLevel + 55.2] |
| TectonicDensity.HeightAtBounds | src/main/java/com/geogen/worldgen/density/TectonicDensityFunction.java:59-82 | for the actual plate and boundary distance, the height lies in [surfaceLevel - 36.8, surfaceLevel + 52.2] |
| TectonicDensity.DensityDecreasingInY | src/main/java/com/geogen/worldgen/density/TectonicDensityFunction.java:47-56 | for a positive height scale, the density is strictly decreasing in y |
| TectonicDensity.SolidIff | src/main/java/com/geogen/worldgen/density/TectonicDensityFunction.java:47-56 | for a positive height scale, the density is positive iff y < height + 10·bias, where the bias is +0.05 for oceanic and -0.02 for continental crust |
| TectonicDensity.UnscaledDensityInRange | src/main/java/com/geogen/worldgen/density/TectonicDensityFunction.java:47-54 | for heights in [27.2, 116.2] and y in [-523, 667], the unscaled density lies in [-64, 64] |
| TectonicDensity.ScaledDensityInRange | src/main/java/com/geogen/worldgen/density/TectonicDensityFunction.java:56 | a height scale in (0, 1] keeps a density inside [-64, 64] |
| TectonicDensity.DensityWithinDeclaredRange | src/main/java/com/geogen/worldgen/density/TectonicDensityFunction.java:35-102 | at the default surface level, with height scale in (0, 1] and y in [-523, 667] (a superset of the build range), the density lies in the declared [minValue, maxValue] |
| TectonicDensity.DensityBelowDeclaredMinimum | src/main/java/com/geogen/worldgen/density/TectonicDensityFunction.java:35-97 | with the defaults, the density at y = 1000 lies below the declared minimum -64 |
| TectonicDensity.TectonicDensityFunction.constructor | src/main/java/com/geogen/worldgen/density/TectonicDensityFunction.java:27-32 | keeps the three settings and builds its own plate system with an empty cache |
| TectonicDensity.TectonicDensityFunction.CalculateTerrainHeight | src/main/java/com/geogen/worldgen/density/TectonicDensityFunction.java:59-82 | the height is the modelled terrain height for the plate and the looked-up boundary distance; the cache only grows |
| TectonicDensity.TectonicDensityFunction.Compute | src/main/java/com/geogen/worldgen/density/TectonicDensityFunction.java:35-57 | the density is the modelled density at (x, y, z) for this object's settings; the cache only grows |
| TectonicDensity.TectonicDensityFunction.MapAll | src/main/java/com/geogen/worldgen/density/TectonicDensityFunction.java:90-92 | a fresh function with the same seed, surface level and height scale |
| PlateBoundaryDensity.DecodeSettings | src/main/java/com/geogen/worldgen/density/PlateBoundaryDensityFunction.java:12-17 | decoding fails exactly when the seed is missing; present fields are kept |
| PlateBoundaryDensity.CodecDefault | src/main/java/com/geogen/worldgen/density/PlateBoundaryDensityFunction.java:15 | a record with only a seed decodes to threshold 256 |
| PlateBoundaryDensity.BoundaryStrength | src/main/java/com/geogen/worldgen/density/PlateBoundaryDensityFunction.java:37 | models `Math.max(0, 1 - d / t)`, with 0 for threshold 0 at a positive distance; StrengthPositiveIff, StrengthNonIncreasing and StrengthWithinDeclaredRange state its properties |
| PlateBoundaryDensity.StrengthAt | src/main/java/com/geogen/worldgen/density/PlateBoundaryDensityFunction.java:30-38 | models `compute`: the strength of the column's boundary distance, with no dependence on y; DefaultStrengthAtMostThreeQuarters and StrengthAtWithinDeclaredRange bound it |
| PlateBoundaryDensity.StrengthWithinDeclaredRange | src/main/java/com/geogen/worldgen/density/PlateBoundaryDensityFunction.java:37-58 | for a non-negative distance and a positive threshold, the strength lies in the declared [0, 1] |
| PlateBoundaryDensity.ZeroThresholdStrength | src/main/java/com/geogen/worldgen/density/PlateBoundaryDensityFunction.java:37 | with threshold 0.0 the strength at a positive distance is 0, as max(0, 1 - ∞) gives |
| PlateBoundaryDensity.ZeroThresholdStrengthAt | src/main/java/com/geogen/worldgen/density/PlateBoundaryDensityFunction.java:30-38 | with threshold 0.0 the strength at every column is 0 |
| PlateBoundaryDensity.StrengthAtWithinDeclaredRange | src/main/java/com/geogen/worldgen/density/PlateBoundaryDensityFunction.java:30-58 | for every non-negative threshold, including 0, the strength at any column lies in the declared [0, 1] |
| PlateBoundaryDensity.StrengthPositiveIff | src/main/java/com/geogen/worldgen/density/PlateBoundaryDensityFunction.java:37 | the strength is positive iff the distance is below the threshold, and 0 at or beyond it |
| PlateBoundaryDensity.StrengthNonIncreasing | src/main/java/com/geogen/worldgen/density/PlateBoundaryDensityFunction.java:37 | a farther boundary never gives a larger strength |
| PlateBoundaryDensity.DefaultStrengthAtMostThreeQuarters | src/main/java/com/geogen/worldgen/density/PlateBoundaryDensityFunction.java:30-38 | with the default threshold the strength at any column is at most 0.75 |
| PlateBoundaryDensity.PlateBoundaryDensityFunction.constructor | src/main/java/com/geogen/worldgen/density/PlateBoundaryDensityFunction.java:23-27 | keeps the seed and threshold and builds its own plate system with an empty cache |
| PlateBoundaryDensity.PlateBoundaryDensityFunction.Compute | src/main/java/com/geogen/worldgen/density/PlateBoundaryDensityFunction.java:30-38 | the strength at the column (x, z), whatever y is, for every threshold including 0; the cache only grows |
| PlateBoundaryDensity.PlateBoundaryDensityFunction.MapAll | src/main/java/com/geogen/worldgen/density/PlateBoundaryDensityFunction.java:46-48 | a fresh function with the same seed and threshold |
| TerrainPropertiesRecord.NotNearAtOwnDistance | src/main/java/com/geogen/worldgen/TerrainProperties.java:27-29 | `isNearBoundary(boundaryDistance)` is false, because the test is strict |
| TerrainPropertiesRecord.TerrainProperties.IsNearBoundary | src/main/java/com/geogen/worldgen/TerrainProperties.java:27-29 | models the strict test `boundaryDistance < threshold`; the three lemmas below state its properties |
| TerrainPropertiesRecord.NearMonotoneInThreshold | src/main/java/com/geogen/worldgen/TerrainProperties.java:27-29 | near at a threshold implies near at every larger threshold |
| TerrainPropertiesRecord.NearIffPositiveStrength | src/main/java/com/geogen/worldgen/TerrainProperties.java:27-29 | for a positive threshold, near a boundary exactly when the boundary strength is positive |
| ChunkGeneration.RockFor | src/main/java/com/geogen/worldgen/chunk/GeoGenChunkGenerator.java:163-182 | models the depth bands of getBlockStateForLocation (below 0 basalt or stone, 0 to 31 tuff or andesite, 32 and up stone, oceanic first); its contract: the rock is never air |
| ChunkGeneration.RockAt | src/main/java/com/geogen/worldgen/chunk/GeoGenChunkGenerator.java:163-182 | models `getBlockStateForLocation`: the rock for y and the crust of the plate at (x, z) |
| ChunkGeneration.SurfaceBlocks | src/main/java/com/geogen/worldgen/chunk/GeoGenChunkGenerator.java:92-104 | models the switch: oceanic gives (gravel, basalt), continental gives (grass block, stone); SurfaceBlocksDistinct states its properties |
| ChunkGeneration.RockCrustIndependentFrom32 | src/main/java/com/geogen/worldgen/chunk/GeoGenChunkGenerator.java:178-181 | from y = 32 up the rock is stone for both crusts |
| ChunkGeneration.RockRevealsCrustBelow32 | src/main/java/com/geogen/worldgen/chunk/GeoGenChunkGenerator.java:168-177 | below y = 32 different crusts give different rock |
| ChunkGeneration.SurfaceBlocksDistinct | src/main/java/com/geogen/worldgen/chunk/GeoGenChunkGenerator.java:92-104 | the surface and subsurface blocks are not air, and the surface block tells the crust apart (gravel vs grass) |
| ChunkGeneration.Layers | src/main/java/com/geogen/worldgen/chunk/GeoGenChunkGenerator.java:107-113 | the cells written from lo up to topY: the surface block at topY and the subsurface block below; LayersPointwise characterises it |
| ChunkGeneration.LowestLayer | src/main/java/com/geogen/worldgen/chunk/GeoGenChunkGenerator.java:111 | the lowest y the subsurface loop reaches: topY - 3, or minBuildHeight when that is higher |
| ChunkGeneration.ColumnSurface | src/main/java/com/geogen/worldgen/chunk/GeoGenChunkGenerator.java:107-114 | models the writes of `applySurfaceForColumn`, empty below the build range; ColumnSurfaceShape characterises it |
| ChunkGeneration.LayersPointwise | src/main/java/com/geogen/worldgen/chunk/GeoGenChunkGenerator.java:107-113 | the written layers are exactly the cells from lo to topY of the column, with the surface block at topY and the subsurface block below it |
| ChunkGeneration.ColumnSurfaceShape | src/main/java/com/geogen/worldgen/chunk/GeoGenChunkGenerator.java:107-114 | nothing is written unless topY ≥ minBuildHeight; otherwise the surface block is at topY and subsurface blocks at topY-1..topY-3, stopping above minBuildHeight - 1, and nothing else in the chunk |
| ChunkGeneration.LayersGrowDown | src/main/java/com/geogen/worldgen/chunk/GeoGenChunkGenerator.java:111-113 | one more layer adds exactly the cell below the layers written so far |
| ChunkGeneration.Chunk.constructor | src/main/java/com/geogen/worldgen/chunk/GeoGenChunkGenerator.java:137-140 | a chunk with the given position, build range, heightmap and blocks |
| ChunkGeneration.Chunk.SetBlockState | src/main/java/com/geogen/worldgen/chunk/GeoGenChunkGenerator.java:108 | one cell is set and every other cell is unchanged |
| ChunkGeneration.WriteLayer | src/main/java/com/geogen/worldgen/chunk/GeoGenChunkGenerator.java:108-112 | one layer write extends the written column downward by one cell |
| ChunkGeneration.ApplySurfaceForColumn | src/main/java/com/geogen/worldgen/chunk/GeoGenChunkGenerator.java:85-115 | the chunk's new blocks are its old blocks overlaid with exactly the column's surface layers for the plate's crust |
| ChunkGeneration.WriteSubsurface | src/main/java/com/geogen/worldgen/chunk/GeoGenChunkGenerator.java:111-113 | the loop writes subsurface blocks from topY-1 down to the lowest layer allowed by the build height |
| ChunkGeneration.WorldCoord | src/main/java/com/geogen/worldgen/chunk/GeoGenChunkGenerator.java:73-74 | `chunk * 16 + local` as a Java int |
| ChunkGeneration.CrustLookupIsCrustLookup | src/main/java/com/geogen/worldgen/chunk/GeoGenChunkGenerator.java:77 | the crust lookup used by the surface pass is the crust of the plate at each column |
| ChunkGeneration.CrustAt | src/main/java/com/geogen/worldgen/chunk/GeoGenChunkGenerator.java:77 | the crust of the plate at a column |
| ChunkGeneration.SurfaceColumn | src/main/java/com/geogen/worldgen/chunk/GeoGenChunkGenerator.java:73-80 | the surface writes of one local column at its world coordinates |
| ChunkGeneration.SurfaceOverlay | src/main/java/com/geogen/worldgen/chunk/GeoGenChunkGenerator.java:71-82 | models the writes of the surface pass's loops over the columns visited so far; SurfaceOverlayPointwise and SurfacePassPointwise characterise it |
| ChunkGeneration.SurfaceOverlayPointwise | src/main/java/com/geogen/worldgen/chunk/GeoGenChunkGenerator.java:71-82 | after the columns before (lx, lz), exactly the visited columns carry surface layers, each the layers of its own column |
| ChunkGeneration.SurfaceColumnOwnCells | src/main/java/com/geogen/worldgen/chunk/GeoGenChunkGenerator.java:107-113 | a column's surface pass writes only cells of that column |
| ChunkGeneration.SurfacePassPointwise | src/main/java/com/geogen/worldgen/chunk/GeoGenChunkGenerator.java:64-83 | the whole surface pass writes only inside the 16×16 chunk, and each of the 256 columns, at world coordinates chunk·16 + local, gets its own crust's layers |
| ChunkGeneration.ColumnBlockAirIff | src/main/java/com/geogen/worldgen/chunk/GeoGenChunkGenerator.java:221-223 | a column entry is air exactly when the density is ≤ 0 |
| ChunkGeneration.ColumnSolidBelow | src/main/java/com/geogen/worldgen/chunk/GeoGenChunkGenerator.java:219-223 | below any solid entry of a column every entry is solid, because the density decreases with y |
| ChunkGeneration.ColumnBlock | src/main/java/com/geogen/worldgen/chunk/GeoGenChunkGenerator.java:221-223 | models one entry of `getBaseColumn`: air unless the density is positive, else the rock; ColumnBlockAirIff characterises it |
| ChunkGeneration.BaseWorld | src/main/java/com/geogen/worldgen/chunk/GeoGenChunkGenerator.java:151-155 | the block field the terrain pass consults, ColumnBlock at every position |
| ChunkGeneration.BaseWorldIsBaseWorld | src/main/java/com/geogen/worldgen/chunk/GeoGenChunkGenerator.java:151-155 | the block field used by the terrain pass is the density-and-rock block at each position |
| ChunkGeneration.SolidWrites | src/main/java/com/geogen/worldgen/chunk/GeoGenChunkGenerator.java:149-157 | models the writes of one column's y loop below yEnd; SolidWritesPointwise characterises it |
| ChunkGeneration.TerrainColumn | src/main/java/com/geogen/worldgen/chunk/GeoGenChunkGenerator.java:145-157 | the terrain writes of one local column over the whole build range |
| ChunkGeneration.TerrainOverlay | src/main/java/com/geogen/worldgen/chunk/GeoGenChunkGenerator.java:143-160 | models the writes of the terrain pass's loops over the columns visited so far; TerrainOverlayPointwise and TerrainPassPointwise characterise it |
| ChunkGeneration.SolidWritesPointwise | src/main/java/com/geogen/worldgen/chunk/GeoGenChunkGenerator.java:149-157 | the writes of a column's y loop are exactly the solid positions below yEnd, each with its rock |
| ChunkGeneration.TerrainOverlayPointwise | src/main/java/com/geogen/worldgen/chunk/GeoGenChunkGenerator.java:143-158 | after the columns before (lx, lz), exactly the solid cells of the visited columns are written, and nothing else |
| ChunkGeneration.TerrainPassPointwise | src/main/java/com/geogen/worldgen/chunk/GeoGenChunkGenerator.java:137-161 | the terrain pass writes positions of positive density with their rock and leaves every other position untouched, not set to air |
| ChunkGeneration.BaseWorldSolidIff | src/main/java/com/geogen/worldgen/chunk/GeoGenChunkGenerator.java:151-155 | a position is solid exactly when its density is positive, and then holds the rock for its depth and crust |
| ChunkGeneration.BaseHeightRaw | src/main/java/com/geogen/worldgen/chunk/GeoGenChunkGenerator.java:198-207 | models the unclamped height: 64, elevation·32, crust lift and centre effect, without the uplift; BaseHeightRawBounds bounds it |
| ChunkGeneration.BaseHeight | src/main/java/com/geogen/worldgen/chunk/GeoGenChunkGenerator.java:194-210 | models `getBaseHeight`: the raw height clamped to [min, max - 1] and cast to int; BaseHeightWithinBuildRange and OverworldBaseHeight state its properties |
| ChunkGeneration.BaseHeightWithinBuildRange | src/main/java/com/geogen/worldgen/chunk/GeoGenChunkGenerator.java:209 | the base height lies in [minBuildHeight, maxBuildHeight - 1] |
| ChunkGeneration.BaseHeightOmitsBoundaryUplift | src/main/java/com/geogen/worldgen/chunk/GeoGenChunkGenerator.java:200-207 | the density function's height at surface level 64 is the base height's raw value plus the uplift, so the two agree exactly where the boundary is at least 256 away |
| ChunkGeneration.BaseHeightRawBounds | src/main/java/com/geogen/worldgen/chunk/GeoGenChunkGenerator.java:200-207 | for elevation in [-1,1] and age in [0,1], the unclamped height lies in [27.2, 107.2] |
| ChunkGeneration.OverworldBaseHeight | src/main/java/com/geogen/worldgen/chunk/GeoGenChunkGenerator.java:189-209 | in the build range [-64, 320) the clamp never acts, and the base height is the raw height truncated, in [27, 107] |
| ChunkGeneration.GeoGenChunkGenerator.constructor | src/main/java/com/geogen/worldgen/chunk/GeoGenChunkGenerator.java:45-50 | a generator whose own plate system and density function's plate system both start empty |
| ChunkGeneration.GeoGenChunkGenerator.GetBlockStateForLocation | src/main/java/com/geogen/worldgen/chunk/GeoGenChunkGenerator.java:163-182 | the rock for the depth and the crust of the plate at (x, z) |
| ChunkGeneration.GeoGenChunkGenerator.BuildSurface | src/main/java/com/geogen/worldgen/chunk/GeoGenChunkGenerator.java:64-83 | the chunk's blocks become its old blocks overlaid with the surface layers of all 256 columns, each for its own plate's crust |
| ChunkGeneration.GeoGenChunkGenerator.VisitSurfaceColumn | src/main/java/com/geogen/worldgen/chunk/GeoGenChunkGenerator.java:73-80 | one column of the surface pass extends the overlay by that column |
| ChunkGeneration.GeoGenChunkGenerator.FillChunkWithTectonicTerrain | src/main/java/com/geogen/worldgen/chunk/GeoGenChunkGenerator.java:137-161 | the chunk's blocks become its old blocks overlaid with the solid cells of all 256 columns |
| ChunkGeneration.GeoGenChunkGenerator.FillColumn | src/main/java/com/geogen/worldgen/chunk/GeoGenChunkGenerator.java:145-158 | one column's y loop extends the overlay by that column's solid cells |
| ChunkGeneration.GeoGenChunkGenerator.FillBlock | src/main/java/com/geogen/worldgen/chunk/GeoGenChunkGenerator.java:150-157 | one y step writes its rock exactly when the density is positive |
| ChunkGeneration.GeoGenChunkGenerator.GetBaseHeight | src/main/java/com/geogen/worldgen/chunk/GeoGenChunkGenerator.java:194-210 | the clamped, truncated base height of the plate at (x, z) |
| ChunkGeneration.GeoGenChunkGenerator.GetBaseColumn | src/main/java/com/geogen/worldgen/chunk/GeoGenChunkGenerator.java:212-227 | a fresh array of length maxY - minY whose entry y - minY is air iff the density is ≤ 0, else the rock for that position |
| ChunkGeneration.GeoGenChunkGenerator.SampleColumnBlock | src/main/java/com/geogen/worldgen/chunk/GeoGenChunkGenerator.java:221-223 | one entry of the column: air for non-positive density, else the rock |
| JavaMath.Wrap32 | src/main/java/com/geogen/worldgen/plates/PlateSystem.java:51-52 | the result is an int congruent to the input modulo 2³², and equals the input when that fits |
| JavaMath.SaturateInt32 | src/main/java/com/geogen/worldgen/plates/PlateSystem.java:46-47 | the result is an int, and equals the input when that fits |
| JavaMath.DoubleToIntWithin | src/main/java/com/geogen/worldgen/chunk/GeoGenChunkGenerator.java:209 | casting a double between two ints gives an int between them |
| JavaMath.LongXorCancel | src/main/java/com/geogen/worldgen/plates/PlateSystem.java:55-57 | xor with the same long twice is the identity |
| JavaMath.JavaRemBounds | src/main/java/com/geogen/worldgen/plates/PlateSystem.java:82-83 | truncating division and remainder agree with Euclidean ones for non-negative operands and mirror them for non-positive ones |
| JavaMath.Clamp | src/main/java/com/geogen/worldgen/plates/PlateSystem.java:93-97 | `Mth.clamp` stays within the bounds and leaves a value already inside them alone |

## Left out

- Floating point: doubles are `real`. IEEE rounding, NaN, infinities and signed zero are not modelled.
- `Math.sqrt`, `Math.exp`, `Math.pow(·, 1.5)`, `RandomSource` and `SimplexNoise` are not modelled
  by value. They are function-valued parameters with only their stated ranges:
  - sqrt is exact on non-negative reals;
  - exp is positive, and at most 1 on non-positive arguments;
  - pow(·, 1.5) maps 0 to 0 and 1 to 1, and is monotone on [0, 1] with values in [0, 1];
  - nextDouble lies in [0, 1);
  - noise lies in [-1, 1].
  Each random stream is a seed and a draw index.
- The plate cache is modelled sequentially. `HashMap` is not thread-safe, and concurrent use is not modelled.
- `fillFromNoise`'s asynchronous `CompletableFuture` scheduling is not modelled. Only the
  `fillChunkWithTectonicTerrain` it runs is.
- Codecs are modelled only as the fields they decode and their defaults. `RecordCodecBuilder` is not modelled.
- `mapAll` is modelled up to the new function it builds. The host's `Visitor` is not part of this model.
- `fillArray` delegates to the host's `fillAllDirectly` and is not modelled.
- `climateSampler`, `addDebugScreenInfo`, `applyCarvers`, `spawnOriginalMobs`, `getSeaLevel`,
  `getGenDepth`, the registries and the mod entry point are host-engine wiring or noise-free
  constants. These are not modelled beyond the constants -64 and 384 used in `OverworldBaseHeight`.
- `ChunkAccess`, `BlockPos` and `Heightmap` are not modelled as host objects:
  - a chunk is its position, build range, a fixed 256-entry heightmap and a `map` from local
    positions to blocks;
  - `setBlockState` is a map update;
  - the heightmap is taken as given and not recomputed by the writes.
- The `default` branch of the crust switch in `applySurfaceForColumn` cannot be reached with two
  crust types, so the model has no such branch.
- `generatePlateData` takes two sample coordinates that it never uses. The model omits them.
- The loops of `findNearestPlateId`, `getDistanceToBoundary`, `buildSurface`, `fillChunkWithTectonicTerrain`
  and `applySurfaceForColumn` keep their structure. Their bodies are factored into helper
  methods: `VisitCell`, `VisitCandidate`, `KeepNearer`, `ScanGrid`, `ScanRow`, `VisitSample`,
  `VisitSurfaceColumn`, `FillColumn`, `FillBlock`, `WriteLayer`, `WriteSubsurface` and
  `SampleColumnBlock`.
- PlateBoundaryDensity.BoundaryStrength: with threshold 0.0 it requires a positive distance. Java
  returns 0.0 there, and the model does too. At a distance of 0 or below, Java would give NaN or
  +∞, which `real` cannot express.
- PlateBoundaryDensity.StrengthAt: requires an exact square root. With it the boundary distance is
  at least 64, so every threshold, 0.0 included, is covered.
- PlateBoundaryDensity.PlateBoundaryDensityFunction.Compute: requires an exact square root, for the
  same reason as `StrengthAt`. It accepts every threshold the codec does.
- ChunkGeneration.GeoGenChunkGenerator.GetBaseColumn: requires `minBuildHeight <= maxBuildHeight`,
  and a span that fits in an int. Java would throw `NegativeArraySizeException` or overflow the
  length; neither is modelled.
- ChunkGeneration.ApplySurfaceForColumn: the heightmap entry is assumed to lie within one below
  the build range, as the engine keeps it. `topY - i` therefore never overflows an int.
- PlateDataRecord.DistanceToCenter: states that the distance is non-negative and squares to
  the offset. The model does not prove positivity away from the centre, which follows from the
  exact square root.
- PlateSystemModel.NearestPlateIdIsNeighbourCell: requires the grid cell to lie strictly inside the
  int range. At the bounds, the int sums `gridX + dx` wrap, and the model computes them with
  `Wrap32`.

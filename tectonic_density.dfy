/**
 * The main terrain density field: a terrain height built from the plate under a column
 * (base elevation, crust lift, centre proximity and boundary uplift), turned into a density
 * that is positive below that height (solid) and negative above it (air).
 */
module TectonicDensity {
  import opened Wrappers
  import opened JavaMath
  import opened Foreign
  import opened CrustTypeEnum
  import opened PlateDataRecord
  import opened PlateSystemModel

  /** The codec's default for `surface_level`. */
  const DEFAULT_SURFACE_LEVEL: real := 64.0
  /** The codec's default for `height_scale`. */
  const DEFAULT_HEIGHT_SCALE: real := 1.0
  /** The bounds the density function declares through `minValue` and `maxValue`. */
  const MIN_VALUE: real := -64.0
  const MAX_VALUE: real := 64.0
  /** Boundary uplift applies closer than this to another plate. */
  const UPLIFT_RANGE: real := 256.0
  /** The uplift right at a boundary. */
  const MAX_UPLIFT: real := 12.0

  /** The three serialised fields of the density function. */
  datatype Settings = Settings(seed: Long64, surfaceLevel: real, heightScale: real)

  /**
   * The codec: `seed` is required, `surface_level` and `height_scale` fall back to their
   * defaults when absent.
   */
  function DecodeSettings(seed: Option<Long64>, surfaceLevel: Option<real>, heightScale: Option<real>): (r: Option<Settings>)
    ensures r.None? <==> seed.None?
    ensures r.Some? ==> r.value.seed == seed.value
    ensures r.Some? && surfaceLevel.Some? ==> r.value.surfaceLevel == surfaceLevel.value
    ensures r.Some? && heightScale.Some? ==> r.value.heightScale == heightScale.value
  {
    match seed
    case None => None
    case Some(s) => Some(Settings(s, surfaceLevel.GetOr(DEFAULT_SURFACE_LEVEL), heightScale.GetOr(DEFAULT_HEIGHT_SCALE)))
  }

  /** A record holding only a seed decodes to surface level 64 and height scale 1. */
  lemma CodecDefaults(seed: Long64)
    ensures DecodeSettings(Some(seed), None, None) == Some(Settings(seed, 64.0, 1.0))
  {
  }

  // ---------------------------------------------------------------- terrain height

  /** The crust type's elevation modifier, in blocks. */
  function CrustLift(c: CrustType): real {
    c.ElevationModifier() * 16.0
  }

  /** Older crust stands higher towards the plate centre: `exp(-distanceToCenter / 2048) * age * 8`. */
  function CenterEffect(p: Primitives, distanceToCenter: real, age: real): real {
    p.exp(-distanceToCenter / 2048.0) * age * 8.0
  }

  /** The centre effect of a plate of age in [0, 1], at any distance, lies in [0, 8]. */
  lemma CenterEffectBounds(p: Primitives, distanceToCenter: real, age: real)
    requires ExpBounds(p.exp)
    requires 0.0 <= distanceToCenter && 0.0 <= age <= 1.0
    ensures 0.0 <= CenterEffect(p, distanceToCenter, age) <= 8.0
  {
    var e := p.exp(-distanceToCenter / 2048.0);
    assert 0.0 < e <= 1.0;
    ProductMonotone(0.0, e, 0.0, age);
    ProductMonotone(e, 1.0, age, 1.0);
  }

  /**
   * The uplift near a boundary: `(1 - distance / 256) * 12` when the boundary is closer than 256,
   * otherwise nothing.
   */
  function BoundaryEffect(boundaryDistance: real): (r: real)
    ensures r > 0.0 <==> boundaryDistance < UPLIFT_RANGE
    ensures UPLIFT_RANGE <= boundaryDistance ==> r == 0.0
    ensures 0.0 <= boundaryDistance < UPLIFT_RANGE ==> 0.0 < r <= MAX_UPLIFT
    ensures r >= 0.0
  {
    if boundaryDistance < UPLIFT_RANGE then (1.0 - boundaryDistance / UPLIFT_RANGE) * MAX_UPLIFT else 0.0
  }

  /** The uplift never grows as the boundary moves away. */
  lemma BoundaryEffectNonIncreasing(d1: real, d2: real)
    requires d1 <= d2
    ensures BoundaryEffect(d2) <= BoundaryEffect(d1)
  {
  }

  /** A boundary at least 64 away lifts the terrain by at most 9. */
  lemma BoundaryEffectAtSampleDistance(boundaryDistance: real)
    requires 64.0 <= boundaryDistance
    ensures BoundaryEffect(boundaryDistance) <= 9.0
  {
  }

  /** `calculateTerrainHeight`, given the plate and the boundary distance at (x, z). */
  function TerrainHeight(p: Primitives, plate: PlateData, surfaceLevel: real, x: real, z: real,
                         boundaryDistance: real): real {
    surfaceLevel + plate.baseElevation * 32.0 + CrustLift(plate.crustType)
    + CenterEffect(p, DistanceToCenter(p, plate, x, z), plate.age) + BoundaryEffect(boundaryDistance)
  }

  /**
   * With elevation in [-1, 1], age in [0, 1] and a non-negative boundary distance, the height
   * lies between 36.8 below and 55.2 above the surface level.
   */
  lemma TerrainHeightBounds(p: Primitives, plate: PlateData, surfaceLevel: real, x: real, z: real,
                            boundaryDistance: real)
    requires SqrtIsExact(p.sqrt) && ExpBounds(p.exp)
    requires -1.0 <= plate.baseElevation <= 1.0 && 0.0 <= plate.age <= 1.0
    requires 0.0 <= boundaryDistance
    ensures var h := TerrainHeight(p, plate, surfaceLevel, x, z, boundaryDistance);
      surfaceLevel - 36.8 <= h <= surfaceLevel + 55.2
  {
    CenterEffectBounds(p, DistanceToCenter(p, plate, x, z), plate.age);
  }

  // ---------------------------------------------------------------- density

  /** Oceanic crust is denser (+0.05), continental crust lighter (-0.02). */
  function CrustBias(c: CrustType): real {
    if c == Oceanic then 0.05 else -0.02
  }

  /** The density before the height scale: a tenth of the height above y, plus the crust bias. */
  function UnscaledDensity(height: real, y: int, c: CrustType): real {
    (height - y as real) * 0.1 + CrustBias(c)
  }

  /** `compute`'s result for a column of the given height and crust. */
  function Density(height: real, y: int, c: CrustType, heightScale: real): real {
    UnscaledDensity(height, y, c) * heightScale
  }

  /** For a positive height scale, density strictly decreases going up a column. */
  lemma DensityDecreasingInY(height: real, y1: int, y2: int, c: CrustType, heightScale: real)
    requires y1 < y2 && 0.0 < heightScale
    ensures Density(height, y2, c, heightScale) < Density(height, y1, c, heightScale)
  {
    MulStrictMonotone(UnscaledDensity(height, y2, c), UnscaledDensity(height, y1, c), heightScale);
  }

  /** For a positive height scale, a block is solid exactly below the height shifted by ten times the bias. */
  lemma SolidIff(height: real, y: int, c: CrustType, heightScale: real)
    requires 0.0 < heightScale
    ensures Density(height, y, c, heightScale) > 0.0 <==> (y as real) < height + 10.0 * CrustBias(c)
  {
    var u := UnscaledDensity(height, y, c);
    assert u > 0.0 <==> (y as real) < height + 10.0 * CrustBias(c);
    if u > 0.0 {
      ScaledPositive(u, heightScale);
    } else {
      ScaledNonPositive(u, heightScale);
    }
  }

  // ---------------------------------------------------------------- the field over the world

  /** The terrain height at (x, z) for a world seed. */
  function HeightAt(p: Primitives, seed: Long64, surfaceLevel: real, x: real, z: real): real {
    TerrainHeight(p, PlateAt(p, seed, x, z), surfaceLevel, x, z, BoundaryDistance(p, seed, x, z))
  }

  /** The density at block (x, y, z) for the given settings. */
  function DensityAt(p: Primitives, s: Settings, x: int, y: int, z: int): real {
    var plate := PlateAt(p, s.seed, x as real, z as real);
    Density(HeightAt(p, s.seed, s.surfaceLevel, x as real, z as real), y, plate.crustType, s.heightScale)
  }

  /**
   * Over the whole world the boundary uplift is at most 9 (the boundary is either 512 away or at
   * least 64), so the height lies between 36.8 below and 52.2 above the surface level.
   */
  lemma HeightAtBounds(p: Primitives, seed: Long64, surfaceLevel: real, x: real, z: real)
    requires p.Valid()
    ensures surfaceLevel - 36.8 <= HeightAt(p, seed, surfaceLevel, x, z) <= surfaceLevel + 52.2
  {
    var plate := PlateAt(p, seed, x, z);
    var bd := BoundaryDistance(p, seed, x, z);
    GeneratedPlateRanges(p, seed, plate.plateId);
    CenterEffectBounds(p, DistanceToCenter(p, plate, x, z), plate.age);
    BoundaryDistanceRange(p, seed, x, z);
    if bd != 512.0 {
      BoundaryEffectAtSampleDistance(bd);
    }
  }

  /**
   * A column between 27.2 and 116.2 high has an unscaled density in [-64, 64] for y in
   * [-523, 667]; both ends are tight for some height and crust.
   */
  lemma UnscaledDensityInRange(height: real, y: int, c: CrustType)
    requires 27.2 <= height <= 116.2 && -523 <= y <= 667
    ensures MIN_VALUE <= UnscaledDensity(height, y, c) <= MAX_VALUE
  {
  }

  /** Scaling by a height scale in (0, 1] keeps a density inside [-64, 64]. */
  lemma ScaledDensityInRange(height: real, y: int, c: CrustType, heightScale: real)
    requires MIN_VALUE <= UnscaledDensity(height, y, c) <= MAX_VALUE
    requires 0.0 < heightScale <= 1.0
    ensures MIN_VALUE <= Density(height, y, c, heightScale) <= MAX_VALUE
  {
    var u := UnscaledDensity(height, y, c);
    ScaleBelow(u, heightScale, MAX_VALUE);
    ScaleAbove(u, heightScale, MIN_VALUE);
  }

  /**
   * The declared range [-64, 64] holds for the codec's default surface level, a height scale in
   * (0, 1] and y in [-523, 667], which contains the build range [-64, 320).
   */
  lemma DensityWithinDeclaredRange(p: Primitives, s: Settings, x: int, y: int, z: int)
    requires p.Valid()
    requires s.surfaceLevel == DEFAULT_SURFACE_LEVEL && 0.0 < s.heightScale <= 1.0
    requires -523 <= y <= 667
    ensures MIN_VALUE <= DensityAt(p, s, x, y, z) <= MAX_VALUE
  {
    var h := HeightAt(p, s.seed, s.surfaceLevel, x as real, z as real);
    var c := PlateAt(p, s.seed, x as real, z as real).crustType;
    HeightAtBounds(p, s.seed, s.surfaceLevel, x as real, z as real);
    UnscaledDensityInRange(h, y, c);
    ScaledDensityInRange(h, y, c, s.heightScale);
  }

  /** Far above the terrain the density leaves the declared range: at y = 1000 it is below -64. */
  lemma DensityBelowDeclaredMinimum(p: Primitives, seed: Long64, x: int, z: int)
    requires p.Valid()
    ensures DensityAt(p, Settings(seed, DEFAULT_SURFACE_LEVEL, 1.0), x, 1000, z) < MIN_VALUE
  {
    HeightAtBounds(p, seed, DEFAULT_SURFACE_LEVEL, x as real, z as real);
  }

  // ---------------------------------------------------------------- the density-function object

  /** The density function object; its plate system (and so its plate cache) is its own. */
  class TectonicDensityFunction {
    const seed: Long64
    const surfaceLevel: real
    const heightScale: real
    const plateSystem: PlateSystem

    ghost predicate Valid()
      reads this, plateSystem
    {
      plateSystem.Valid() && plateSystem.seed == seed
    }

    /** The settings this object was built with. */
    function CurrentSettings(): Settings {
      Settings(seed, surfaceLevel, heightScale)
    }

    /** Builds a density function with a fresh plate system for the same seed. */
    constructor (seed: Long64, surfaceLevel: real, heightScale: real, prims: Primitives)
      ensures this.seed == seed && this.surfaceLevel == surfaceLevel && this.heightScale == heightScale
      ensures fresh(plateSystem) && plateSystem.prims == prims && plateSystem.plateCache == map[]
      ensures Valid()
    {
      this.seed := seed;
      this.surfaceLevel := surfaceLevel;
      this.heightScale := heightScale;
      plateSystem := new PlateSystem(seed, prims);
    }

    /** `calculateTerrainHeight`: accumulates the four height terms; the boundary query may fill the cache. */
    method CalculateTerrainHeight(plate: PlateData, x: real, z: real) returns (height: real)
      requires Valid()
      modifies plateSystem
      ensures Valid()
      ensures height == TerrainHeight(plateSystem.prims, plate, surfaceLevel, x, z,
                                      BoundaryDistance(plateSystem.prims, seed, x, z))
      ensures old(plateSystem.plateCache).Keys <= plateSystem.plateCache.Keys
    {
      var p := plateSystem.prims;
      height := surfaceLevel + plate.baseElevation * 32.0;
      height := height + plate.crustType.ElevationModifier() * 16.0;
      var distanceToCenter := DistanceToCenter(p, plate, x, z);
      var centerEffect := CenterEffect(p, distanceToCenter, plate.age);
      height := height + centerEffect;
      var boundaryDistance := plateSystem.GetDistanceToBoundary(x, z);
      if boundaryDistance < UPLIFT_RANGE {
        var boundaryEffect := (1.0 - boundaryDistance / UPLIFT_RANGE) * MAX_UPLIFT;
        height := height + boundaryEffect;
      }
    }

    /** `compute`: the density at block (x, y, z); plate lookups may fill the cache. */
    method Compute(x: int, y: int, z: int) returns (density: real)
      requires Valid()
      modifies plateSystem
      ensures Valid()
      ensures density == DensityAt(plateSystem.prims, CurrentSettings(), x, y, z)
      ensures old(plateSystem.plateCache).Keys <= plateSystem.plateCache.Keys
    {
      var plate := plateSystem.GetPlateAt(x as real, z as real);
      var baseHeight := CalculateTerrainHeight(plate, x as real, z as real);
      density := Density(baseHeight, y, plate.crustType, heightScale);
    }

    /** `mapAll`, before the visitor is applied: a new density function with the same settings. */
    method MapAll() returns (r: TectonicDensityFunction)
      requires Valid()
      ensures fresh(r) && fresh(r.plateSystem) && r.Valid()
      ensures r.CurrentSettings() == CurrentSettings() && r.plateSystem.prims == plateSystem.prims
    {
      r := new TectonicDensityFunction(seed, surfaceLevel, heightScale, plateSystem.prims);
    }
  }
}

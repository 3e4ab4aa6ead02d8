/**
 * The boundary-strength field: 1 on a plate boundary, falling linearly to 0 at the threshold
 * distance and 0 beyond it; it is constant along each vertical column.
 */
module PlateBoundaryDensity {
  import opened Wrappers
  import opened JavaMath
  import opened Foreign
  import opened PlateSystemModel

  /** The codec's default for `boundary_threshold`. */
  const DEFAULT_BOUNDARY_THRESHOLD: real := 256.0
  /** The bounds the function declares through `minValue` and `maxValue`. */
  const MIN_VALUE: real := 0.0
  const MAX_VALUE: real := 1.0

  /** The two serialised fields of the function. */
  datatype Settings = Settings(seed: Long64, boundaryThreshold: real)

  /** The codec: `seed` is required, `boundary_threshold` falls back to 256 when absent. */
  function DecodeSettings(seed: Option<Long64>, boundaryThreshold: Option<real>): (r: Option<Settings>)
    ensures r.None? <==> seed.None?
    ensures r.Some? ==> r.value.seed == seed.value
    ensures r.Some? && boundaryThreshold.Some? ==> r.value.boundaryThreshold == boundaryThreshold.value
  {
    match seed
    case None => None
    case Some(s) => Some(Settings(s, boundaryThreshold.GetOr(DEFAULT_BOUNDARY_THRESHOLD)))
  }

  /** A record holding only a seed decodes to threshold 256. */
  lemma CodecDefault(seed: Long64)
    ensures DecodeSettings(Some(seed), None) == Some(Settings(seed, 256.0))
  {
  }

  /**
   * `Math.max(0.0, 1.0 - boundaryDistance / boundaryThreshold)`. A threshold of 0.0 divides a
   * positive distance to +infinity, so the difference is -infinity and the maximum is 0.0; at a
   * non-positive distance that case would give NaN or +infinity, which is not modelled.
   */
  function BoundaryStrength(boundaryDistance: real, boundaryThreshold: real): real
    requires boundaryThreshold != 0.0 || 0.0 < boundaryDistance
  {
    if boundaryThreshold == 0.0 then 0.0
    else Max(0.0, 1.0 - boundaryDistance / boundaryThreshold)
  }

  /** For a non-negative distance and a positive threshold the strength lies in the declared [0, 1]. */
  lemma StrengthWithinDeclaredRange(boundaryDistance: real, boundaryThreshold: real)
    requires 0.0 <= boundaryDistance && 0.0 < boundaryThreshold
    ensures MIN_VALUE <= BoundaryStrength(boundaryDistance, boundaryThreshold) <= MAX_VALUE
  {
    QuotientNonNegative(boundaryDistance, boundaryThreshold);
  }

  /** At or beyond the threshold the strength is 0; closer than it, it is positive. */
  lemma StrengthPositiveIff(boundaryDistance: real, boundaryThreshold: real)
    requires 0.0 < boundaryThreshold
    ensures BoundaryStrength(boundaryDistance, boundaryThreshold) > 0.0 <==> boundaryDistance < boundaryThreshold
    ensures boundaryThreshold <= boundaryDistance ==> BoundaryStrength(boundaryDistance, boundaryThreshold) == 0.0
  {
    if boundaryDistance < boundaryThreshold {
      QuotientBelowOne(boundaryDistance, boundaryThreshold);
    } else {
      QuotientAtLeastOne(boundaryDistance, boundaryThreshold);
    }
  }

  /** With threshold 0 the strength at any positive distance is 0, inside the declared range. */
  lemma ZeroThresholdStrength(boundaryDistance: real)
    requires 0.0 < boundaryDistance
    ensures BoundaryStrength(boundaryDistance, 0.0) == MIN_VALUE
  {
  }

  /** A boundary further away never gives a larger strength. */
  lemma StrengthNonIncreasing(d1: real, d2: real, boundaryThreshold: real)
    requires d1 <= d2 && 0.0 < boundaryThreshold
    ensures BoundaryStrength(d2, boundaryThreshold) <= BoundaryStrength(d1, boundaryThreshold)
  {
    QuotientMonotone(d1, d2, boundaryThreshold);
  }

  /** The strength field over the world: it depends on the column (x, z) only. */
  function StrengthAt(p: Primitives, s: Settings, x: int, z: int): real
    requires SqrtIsExact(p.sqrt)
  {
    BoundaryDistanceRange(p, s.seed, x as real, z as real);
    BoundaryStrength(BoundaryDistance(p, s.seed, x as real, z as real), s.boundaryThreshold)
  }

  /** With threshold 0, which the codec accepts, the strength is 0 at every column. */
  lemma ZeroThresholdStrengthAt(p: Primitives, seed: Long64, x: int, z: int)
    requires SqrtIsExact(p.sqrt)
    ensures StrengthAt(p, Settings(seed, 0.0), x, z) == 0.0
  {
  }

  /** For every threshold the codec can hold that is not negative, the strength lies in the declared [0, 1]. */
  lemma StrengthAtWithinDeclaredRange(p: Primitives, s: Settings, x: int, z: int)
    requires SqrtIsExact(p.sqrt) && 0.0 <= s.boundaryThreshold
    ensures MIN_VALUE <= StrengthAt(p, s, x, z) <= MAX_VALUE
  {
    var d := BoundaryDistance(p, s.seed, x as real, z as real);
    BoundaryDistanceRange(p, s.seed, x as real, z as real);
    if s.boundaryThreshold != 0.0 {
      StrengthWithinDeclaredRange(d, s.boundaryThreshold);
    }
  }

  /**
   * With the default threshold a column is either far from every boundary (strength 0) or at
   * least 64 away from one, so the strength never exceeds 0.75 and the value 1 is never reached.
   */
  lemma DefaultStrengthAtMostThreeQuarters(p: Primitives, seed: Long64, x: int, z: int)
    requires SqrtIsExact(p.sqrt)
    ensures StrengthAt(p, Settings(seed, DEFAULT_BOUNDARY_THRESHOLD), x, z) <= 0.75
  {
    BoundaryDistanceRange(p, seed, x as real, z as real);
  }

  /** The function object; its plate system (and so its plate cache) is its own. */
  class PlateBoundaryDensityFunction {
    const seed: Long64
    const boundaryThreshold: real
    const plateSystem: PlateSystem

    ghost predicate Valid()
      reads this, plateSystem
    {
      plateSystem.Valid() && plateSystem.seed == seed
    }

    /** The settings this object was built with. */
    function CurrentSettings(): Settings {
      Settings(seed, boundaryThreshold)
    }

    /** Builds the function with a fresh plate system for the same seed. */
    constructor (seed: Long64, boundaryThreshold: real, prims: Primitives)
      ensures this.seed == seed && this.boundaryThreshold == boundaryThreshold
      ensures fresh(plateSystem) && plateSystem.prims == prims && plateSystem.plateCache == map[]
      ensures Valid()
    {
      this.seed := seed;
      this.boundaryThreshold := boundaryThreshold;
      plateSystem := new PlateSystem(seed, prims);
    }

    /** `compute`: the strength at the column of (x, y, z); y is ignored and the lookup may fill the cache. */
    method Compute(x: int, y: int, z: int) returns (strength: real)
      requires Valid() && SqrtIsExact(plateSystem.prims.sqrt)
      modifies plateSystem
      ensures Valid()
      ensures strength == StrengthAt(plateSystem.prims, CurrentSettings(), x, z)
      ensures old(plateSystem.plateCache).Keys <= plateSystem.plateCache.Keys
    {
      var boundaryDistance := plateSystem.GetDistanceToBoundary(x as real, z as real);
      BoundaryDistanceRange(plateSystem.prims, seed, x as real, z as real);
      strength := BoundaryStrength(boundaryDistance, boundaryThreshold);
    }

    /** `mapAll`, before the visitor is applied: a new function with the same settings. */
    method MapAll() returns (r: PlateBoundaryDensityFunction)
      requires Valid()
      ensures fresh(r) && fresh(r.plateSystem) && r.Valid()
      ensures r.CurrentSettings() == CurrentSettings() && r.plateSystem.prims == plateSystem.prims
    {
      r := new PlateBoundaryDensityFunction(seed, boundaryThreshold, plateSystem.prims);
    }
  }
}

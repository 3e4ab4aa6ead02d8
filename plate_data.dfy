/** The immutable attributes of one tectonic plate and the crust classification derived from them. */
module PlateDataRecord {
  import opened Foreign
  import opened CrustTypeEnum

  /** A plate's attributes; `crustType` is derived once, when the record is built by `NewPlateData`. */
  datatype PlateData = PlateData(
    plateId: int,
    centerX: real,
    centerZ: real,
    age: real,
    movementDirection: real,
    movementSpeed: real,
    baseElevation: real,
    crustType: CrustType)

  const CONTINENTAL_THRESHOLD: real := 0.3

  /** `Math.pow(age, 2.0) * Math.pow((baseElevation + 1.0) / 2.0, 1.5)`. */
  function ContinentalProbability(p: Primitives, age: real, baseElevation: real): real {
    age * age * p.pow15((baseElevation + 1.0) / 2.0)
  }

  /** Continental exactly when the continental probability exceeds 0.3, oceanic otherwise. */
  function DetermineCrustType(p: Primitives, age: real, baseElevation: real): (c: CrustType)
    ensures c == Continental <==> ContinentalProbability(p, age, baseElevation) > CONTINENTAL_THRESHOLD
    ensures c == Oceanic <==> ContinentalProbability(p, age, baseElevation) <= CONTINENTAL_THRESHOLD
  {
    if ContinentalProbability(p, age, baseElevation) > CONTINENTAL_THRESHOLD then Continental else Oceanic
  }

  /** The PlateData constructor: stores its arguments and classifies the crust from age and elevation. */
  function NewPlateData(p: Primitives, plateId: int, centerX: real, centerZ: real, age: real,
                        movementDirection: real, movementSpeed: real, baseElevation: real): (d: PlateData)
    ensures d.plateId == plateId && d.centerX == centerX && d.centerZ == centerZ
    ensures d.age == age && d.movementDirection == movementDirection
    ensures d.movementSpeed == movementSpeed && d.baseElevation == baseElevation
    ensures WellFormed(p, d)
  {
    PlateData(plateId, centerX, centerZ, age, movementDirection, movementSpeed, baseElevation,
              DetermineCrustType(p, age, baseElevation))
  }

  /** The stored crust type is the one age and elevation determine. */
  ghost predicate WellFormed(p: Primitives, d: PlateData) {
    d.crustType == DetermineCrustType(p, d.age, d.baseElevation)
  }

  /** Classification purity: two well-formed records with equal age and elevation have the same crust type. */
  lemma CrustTypeDependsOnlyOnAgeAndElevation(p: Primitives, d1: PlateData, d2: PlateData)
    requires WellFormed(p, d1) && WellFormed(p, d2)
    requires d1.age == d2.age && d1.baseElevation == d2.baseElevation
    ensures d1.crustType == d2.crustType
  {
  }

  /** A plate of age 0 or of the lowest elevation is oceanic; the oldest plate at the highest elevation is continental. */
  lemma CrustTypeExtremes(p: Primitives, age: real, baseElevation: real)
    requires Pow15Bounds(p.pow15)
    ensures DetermineCrustType(p, 0.0, baseElevation) == Oceanic
    ensures DetermineCrustType(p, age, -1.0) == Oceanic
    ensures DetermineCrustType(p, 1.0, 1.0) == Continental
  {
    assert (1.0 + 1.0) / 2.0 == 1.0;
    assert (-1.0 + 1.0) / 2.0 == 0.0;
  }

  /** Over age in [0, 1] and elevation in [-1, 1], growing older or higher never turns continental crust oceanic. */
  lemma CrustTypeMonotone(p: Primitives, age: real, elev: real, age': real, elev': real)
    requires Pow15Bounds(p.pow15)
    requires 0.0 <= age <= age' <= 1.0 && -1.0 <= elev <= elev' <= 1.0
    requires DetermineCrustType(p, age, elev) == Continental
    ensures DetermineCrustType(p, age', elev') == Continental
  {
    var e, e' := (elev + 1.0) / 2.0, (elev' + 1.0) / 2.0;
    var w, w' := p.pow15(e), p.pow15(e');
    assert 0.0 <= w <= w';
    ProductMonotone(age, age', age, age');
    ProductMonotone(age * age, age' * age', w, w');
  }

  /** `dx * dx + dz * dz` for the offset of (x, z) from the plate centre. */
  function SquaredOffset(d: PlateData, x: real, z: real): real {
    (x - d.centerX) * (x - d.centerX) + (z - d.centerZ) * (z - d.centerZ)
  }

  /** `getDistanceToCenter`: the Euclidean distance from (x, z) to the plate centre. */
  function DistanceToCenter(p: Primitives, d: PlateData, x: real, z: real): (r: real)
    ensures SqrtIsExact(p.sqrt) ==> 0.0 <= r && r * r == SquaredOffset(d, x, z)
  {
    SquarePositive(x - d.centerX);
    SquarePositive(z - d.centerZ);
    p.sqrt(SquaredOffset(d, x, z))
  }

  /** A point at the plate centre is at distance zero from it. */
  lemma DistanceAtCentreIsZero(p: Primitives, d: PlateData)
    requires SqrtIsExact(p.sqrt)
    ensures DistanceToCenter(p, d, d.centerX, d.centerZ) == 0.0
  {
    assert SquaredOffset(d, d.centerX, d.centerZ) == 0.0 * 0.0 + 0.0 * 0.0 == 0.0;
    SqrtOfSquare(p.sqrt, 0.0);
  }

  /** The distance to the centre depends on the offset only through dx*dx + dz*dz. */
  lemma DistanceDependsOnSquaredOffset(p: Primitives, d: PlateData, x1: real, z1: real, x2: real, z2: real)
    requires SqrtIsExact(p.sqrt)
    requires SquaredOffset(d, x1, z1) == SquaredOffset(d, x2, z2)
    ensures DistanceToCenter(p, d, x1, z1) == DistanceToCenter(p, d, x2, z2)
  {
  }
}

/**
 * The plate layout of the world: a jittered Voronoi partition of the plane into plates, the
 * attributes generated for each plate, the distance from a point to the nearest plate boundary,
 * and the object that caches generated plates by id.
 */
module PlateSystemModel {
  import opened Wrappers
  import opened JavaMath
  import opened Foreign
  import opened PlateDataRecord

  // The constants of the layout, written as literals in the arithmetic below:
  //   2048      grid size, the distance between potential plate centres
  //   31        multiplier of the first cell coordinate in a plate id
  //   0.0001    0.0001, the frequency of the age and elevation noise
  //   512, 64   radius and step of the boundary search: 17 samples per axis, 289 in all

  // ---------------------------------------------------------------- grid cells and ids

  /** `(int) Math.floor(v / gridSize)`: the grid cell containing a coordinate along one axis. */
  function GridCell(v: real): (c: int)
    ensures InInt32(c)
  {
    SaturateInt32((v / 2048.0).Floor)
  }

  /** Unless the cast saturates, the cell returned spans the coordinate. */
  lemma GridCellContains(v: real)
    requires InInt32((v / 2048.0).Floor)
    ensures (GridCell(v) * 2048) as real <= v < ((GridCell(v) + 1) * 2048) as real
  {
    var f := (v / 2048.0).Floor;
    assert f as real <= v / 2048.0 < f as real + 1.0;
  }

  /** The k-th of the nine cells examined (k = 3 * (dx + 1) + (dz + 1)), `int` sums wrapping. */
  function Candidate(gridX: int, gridZ: int, k: nat): (c: (int, int))
    requires k < 9
    ensures InInt32(c.0) && InInt32(c.1)
  {
    (Wrap32(gridX + k / 3 - 1), Wrap32(gridZ + k % 3 - 1))
  }

  /** Away from the `int` bounds, the candidate for offset (dx, dz) is the cell (gridX + dx, gridZ + dz). */
  lemma CandidateIsNeighbour(gridX: int, gridZ: int, dx: int, dz: int)
    requires INT_MIN < gridX < INT_MAX && INT_MIN < gridZ < INT_MAX
    requires -1 <= dx <= 1 && -1 <= dz <= 1
    ensures Candidate(gridX, gridZ, 3 * (dx + 1) + (dz + 1)) == (gridX + dx, gridZ + dz)
  {
    var k := 3 * (dx + 1) + (dz + 1);
    assert k / 3 == dx + 1 && k % 3 == dz + 1;
  }

  /** `checkGridX * 31 + checkGridZ`, in wrapping `int` arithmetic. */
  function PlateIdOf(cellX: int, cellZ: int): (id: int)
    ensures InInt32(id)
    ensures InInt32(cellX * 31 + cellZ) ==> id == cellX * 31 + cellZ
  {
    Wrap32(cellX * 31 + cellZ)
  }

  /** Java evaluates the id in two wrapping steps; wrapping once at the end gives the same value. */
  lemma PlateIdOfTwoSteps(cellX: int, cellZ: int)
    ensures Wrap32(Wrap32(cellX * 31) + cellZ) == PlateIdOf(cellX, cellZ)
  {
    Wrap32Add(cellX * 31, cellZ);
  }

  /** `generatePlateData`'s "reverse of ID generation": `(plateId / 31, plateId % 31)` in Java's truncating division. */
  function InverseCell(id: int): (c: (int, int))
    ensures c.0 * 31 + c.1 == id
    ensures -31 < c.1 < 31
  {
    JavaRemBounds(id, 31);
    (JavaDiv(id, 31), JavaRem(id, 31))
  }

  /** The cells whose id, computed without overflow, Java's `/` and `%` map back to the same cell. */
  predicate Invertible(cellX: int, cellZ: int) {
    (cellX >= 0 && 0 <= cellZ < 31) || (cellX <= 0 && -31 < cellZ <= 0)
  }

  /** `InverseCell` always lands on an invertible cell. */
  lemma InverseCellInvertible(id: int)
    ensures Invertible(InverseCell(id).0, InverseCell(id).1)
  {
    JavaRemBounds(id, 31);
  }

  /** Two invertible cells with the same id are the same cell. */
  lemma InvertibleCellsUnique(x1: int, z1: int, x2: int, z2: int)
    requires Invertible(x1, z1) && Invertible(x2, z2)
    requires x1 * 31 + z1 == x2 * 31 + z2
    ensures x1 == x2 && z1 == z2
  {
    assert (x1 - x2) * 31 == z2 - z1;
  }

  /**
   * The id round trip: decoding the id of a cell (when `cellX * 31 + cellZ` does not overflow)
   * gives the cell back exactly when the cell is invertible.
   */
  lemma PlateIdRoundTrip(cellX: int, cellZ: int)
    requires InInt32(cellX * 31 + cellZ)
    ensures InverseCell(PlateIdOf(cellX, cellZ)) == (cellX, cellZ) <==> Invertible(cellX, cellZ)
  {
    var id := PlateIdOf(cellX, cellZ);
    var c := InverseCell(id);
    InverseCellInvertible(id);
    if Invertible(cellX, cellZ) {
      InvertibleCellsUnique(c.0, c.1, cellX, cellZ);
    }
  }

  /** Ids alias: stepping 31 cells along z has the same id as stepping one cell along x. */
  lemma PlateIdAliases(cellX: int, cellZ: int)
    ensures PlateIdOf(cellX, cellZ + 31) == PlateIdOf(cellX + 1, cellZ)
  {
    assert cellX * 31 + (cellZ + 31) == (cellX + 1) * 31 + cellZ;
  }

  /** A concrete collision: cells (0, 31) and (1, 0) share id 31, though decoding yields only (1, 0). */
  lemma PlateIdCollisionExample()
    ensures PlateIdOf(0, 31) == PlateIdOf(1, 0) == 31
    ensures InverseCell(31) == (1, 0)
  {
    PlateIdAliases(0, 0);
  }

  // ---------------------------------------------------------------- random streams and centres

  /** The seed of a cell's `RandomSource`: `seed ^ (x * 374761393L) ^ (z * 668265263L)` in `long` arithmetic. */
  function CellSeed(seed: Long64, cellX: int, cellZ: int): Long64 {
    LongXor(LongXor(seed, LongMul(Long(cellX), 374761393)), LongMul(Long(cellZ), 668265263))
  }

  /** The seed of a plate's `RandomSource`: `seed ^ (plateId * 1234567L)`. */
  function PlateSeed(seed: Long64, id: int): Long64 {
    LongXor(seed, LongMul(Long(id), 1234567))
  }

  /** `random.nextDouble() * gridSize - gridSize * 0.5` for the k-th draw. */
  function Jitter(p: Primitives, s: Long64, k: nat): real {
    p.nextDouble(s, k) * 2048.0 - 1024.0
  }

  /** A jitter drawn from `[0, 1)` lies in `[-1024, 1024)`. */
  lemma JitterRange(p: Primitives, s: Long64, k: nat)
    requires UnitDraws(p.nextDouble)
    ensures -1024.0 <= Jitter(p, s, k) < 1024.0
  {
  }

  /** The corner of a cell: `cell * gridSize`, an `int` product that wraps. */
  function CellOrigin(cell: int): (r: real)
    ensures InInt32(cell * 2048) ==> r == (cell * 2048) as real
  {
    Wrap32(cell * 2048) as real
  }

  /** The jittered centre of a cell, its offsets drawn first and second from the stream `s`. */
  function JitteredCentre(p: Primitives, s: Long64, cellX: int, cellZ: int): (real, real) {
    (CellOrigin(cellX) + Jitter(p, s, 0), CellOrigin(cellZ) + Jitter(p, s, 1))
  }

  /** A jittered centre lies within half a grid step of the cell corner on each axis. */
  lemma JitteredCentreNearOrigin(p: Primitives, s: Long64, cellX: int, cellZ: int)
    requires UnitDraws(p.nextDouble)
    ensures var c := JitteredCentre(p, s, cellX, cellZ);
      CellOrigin(cellX) - 1024.0 <= c.0 < CellOrigin(cellX) + 1024.0 &&
      CellOrigin(cellZ) - 1024.0 <= c.1 < CellOrigin(cellZ) + 1024.0
  {
    JitterRange(p, s, 0);
    JitterRange(p, s, 1);
  }

  /** `Math.sqrt(dx * dx + dz * dz)` for the offset from (x, z) to a point. */
  function Distance(p: Primitives, x: real, z: real, c: (real, real)): real {
    p.sqrt((x - c.0) * (x - c.0) + (z - c.1) * (z - c.1))
  }

  // ---------------------------------------------------------------- nearest plate

  /** The distance from (x, z) to the centre of the k-th candidate cell. */
  function CandidateDistance(p: Primitives, seed: Long64, x: real, z: real, k: nat): real
    requires k < 9
  {
    var c := Candidate(GridCell(x), GridCell(z), k);
    Distance(p, x, z, JitteredCentre(p, CellSeed(seed, c.0, c.1), c.0, c.1))
  }

  /** The id of the k-th candidate cell. */
  function CandidateId(x: real, z: real, k: nat): int
    requires k < 9
  {
    var c := Candidate(GridCell(x), GridCell(z), k);
    PlateIdOf(c.0, c.1)
  }

  /** The nine candidate distances, in the order the loops visit them. */
  function CandidateDistances(p: Primitives, seed: Long64, x: real, z: real): (ds: seq<real>)
    ensures |ds| == 9
  {
    seq(9, k requires 0 <= k < 9 => CandidateDistance(p, seed, x, z, k))
  }

  /** The nine candidate ids, in the order the loops visit them. */
  function CandidateIds(x: real, z: real): (ids: seq<int>)
    ensures |ids| == 9
  {
    seq(9, k requires 0 <= k < 9 => CandidateId(x, z, k))
  }

  /**
   * The index a scan of the first n distances keeps when it replaces its best only on a strictly
   * smaller value: a minimum, and the first one.
   */
  function FirstMinIndex(ds: seq<real>, n: nat): (k: nat)
    requires 1 <= n <= |ds|
    ensures k < n
    ensures forall j :: 0 <= j < n ==> ds[k] <= ds[j]
    ensures forall j :: 0 <= j < k ==> ds[j] > ds[k]
  {
    if n == 1 then 0
    else
      var k := FirstMinIndex(ds, n - 1);
      if ds[n - 1] < ds[k] then n - 1 else k
  }

  /** The first minimum is the only index that is a minimum and strictly below everything before it. */
  lemma FirstMinIndexUnique(ds: seq<real>, n: nat, k: nat)
    requires 1 <= n <= |ds| && k < n
    requires forall j :: 0 <= j < n ==> ds[k] <= ds[j]
    requires forall j :: 0 <= j < k ==> ds[j] > ds[k]
    ensures k == FirstMinIndex(ds, n)
  {
  }

  /** The candidate `findNearestPlateId` settles on: a nearest one, and the first of the nearest. */
  function NearestCandidate(p: Primitives, seed: Long64, x: real, z: real): (k: nat)
    ensures k < 9
    ensures forall j :: 0 <= j < 9 ==> CandidateDistance(p, seed, x, z, k) <= CandidateDistance(p, seed, x, z, j)
    ensures forall j :: 0 <= j < k ==> CandidateDistance(p, seed, x, z, j) > CandidateDistance(p, seed, x, z, k)
  {
    var ds := CandidateDistances(p, seed, x, z);
    var k := FirstMinIndex(ds, 9);
    assert forall j :: 0 <= j < 9 ==> ds[j] == CandidateDistance(p, seed, x, z, j);
    k
  }

  /** `findNearestPlateId`: the id of the candidate cell whose jittered centre is nearest, ties going to the first. */
  function NearestPlateId(p: Primitives, seed: Long64, x: real, z: real): (id: int)
    ensures InInt32(id)
  {
    CandidateId(x, z, NearestCandidate(p, seed, x, z))
  }

  /** An offset of at most one cell along each axis. */
  predicate NeighbourOffset(dx: int, dz: int) {
    -1 <= dx <= 1 && -1 <= dz <= 1
  }

  /** Away from the `int` bounds, every one of the nine candidates is a neighbour of the grid cell. */
  lemma CandidateIsSomeNeighbour(gridX: int, gridZ: int, k: nat)
    requires INT_MIN < gridX < INT_MAX && INT_MIN < gridZ < INT_MAX && k < 9
    ensures exists dx, dz :: NeighbourOffset(dx, dz) && Candidate(gridX, gridZ, k) == (gridX + dx, gridZ + dz)
  {
    var dx, dz := k / 3 - 1, k % 3 - 1;
    CandidateIsNeighbour(gridX, gridZ, dx, dz);
    assert NeighbourOffset(dx, dz);
  }

  /** Away from the `int` bounds, the nearest id is `cx * 31 + cz` for one of the nine cells around (x, z). */
  lemma NearestPlateIdIsNeighbourCell(p: Primitives, seed: Long64, x: real, z: real)
    requires INT_MIN < GridCell(x) < INT_MAX && INT_MIN < GridCell(z) < INT_MAX
    ensures exists dx, dz :: (NeighbourOffset(dx, dz) &&
      NearestPlateId(p, seed, x, z) == PlateIdOf(GridCell(x) + dx, GridCell(z) + dz))
  {
    var k := NearestCandidate(p, seed, x, z);
    CandidateIsSomeNeighbour(GridCell(x), GridCell(z), k);
  }

  // ---------------------------------------------------------------- plate generation

  /**
   * `generatePlateData(plateId, ...)`: the centre is rebuilt from the cell `InverseCell(plateId)`
   * with offsets from the plate's own stream (draws 0 and 1); age and base elevation are clamped
   * noise at the centre; direction and speed are draws 2 and 3.
   */
  function GeneratePlateData(p: Primitives, seed: Long64, id: int): (d: PlateData)
    ensures d.plateId == id
    ensures WellFormed(p, d)
  {
    var s := PlateSeed(seed, id);
    var cell := InverseCell(id);
    var c := JitteredCentre(p, s, cell.0, cell.1);
    var age := Clamp((p.noise(LongAdd(seed, 1), c.0 * 0.0001 * 2.0, c.1 * 0.0001 * 2.0) + 1.0) * 0.5, 0.0, 1.0);
    var elevation := Clamp(p.noise(LongAdd(seed, 2), c.0 * 0.0001 * 3.0, c.1 * 0.0001 * 3.0), -1.0, 1.0);
    var direction := p.nextDouble(s, 2) * PI * 2.0;
    var speed := 0.1 + p.nextDouble(s, 3) * 0.9;
    NewPlateData(p, id, c.0, c.1, age, direction, speed, elevation)
  }

  /** Attribute ranges of a generated plate. */
  lemma GeneratedPlateRanges(p: Primitives, seed: Long64, id: int)
    requires p.Valid()
    ensures var d := GeneratePlateData(p, seed, id);
      0.0 <= d.age <= 1.0 && -1.0 <= d.baseElevation <= 1.0 &&
      0.0 <= d.movementDirection < 2.0 * PI && 0.1 <= d.movementSpeed < 1.0
  {
    var s := PlateSeed(seed, id);
    assert 0.0 <= p.nextDouble(s, 2) < 1.0;
    assert 0.0 <= p.nextDouble(s, 3) < 1.0;
  }

  /** A generated plate's centre is within half a grid step of the corner of the cell its id decodes to. */
  lemma GeneratedCentreNearInverseCell(p: Primitives, seed: Long64, id: int)
    requires UnitDraws(p.nextDouble)
    ensures var d := GeneratePlateData(p, seed, id); var cell := InverseCell(id);
      CellOrigin(cell.0) - 1024.0 <= d.centerX < CellOrigin(cell.0) + 1024.0 &&
      CellOrigin(cell.1) - 1024.0 <= d.centerZ < CellOrigin(cell.1) + 1024.0
  {
    var cell := InverseCell(id);
    JitteredCentreNearOrigin(p, PlateSeed(seed, id), cell.0, cell.1);
  }

  /** `getPlateAt`, as a value: the plate generated for the nearest plate id. */
  function PlateAt(p: Primitives, seed: Long64, x: real, z: real): (d: PlateData)
    ensures d.plateId == NearestPlateId(p, seed, x, z)
    ensures WellFormed(p, d)
  {
    GeneratePlateData(p, seed, NearestPlateId(p, seed, x, z))
  }

  /** Two points whose nearest ids agree get the very same plate record, whatever cells they lie in. */
  lemma PlateDependsOnlyOnId(p: Primitives, seed: Long64, x1: real, z1: real, x2: real, z2: real)
    requires NearestPlateId(p, seed, x1, z1) == NearestPlateId(p, seed, x2, z2)
    ensures PlateAt(p, seed, x1, z1) == PlateAt(p, seed, x2, z2)
  {
  }

  // ---------------------------------------------------------------- boundary distance

  /** The offset of the k-th boundary sample, visited with dx outer and dz inner. */
  function SampleOffset(k: nat): (o: (int, int))
    requires k < 289
    ensures -512 <= o.0 <= 512 && -512 <= o.1 <= 512
    ensures o.0 % 64 == 0 && o.1 % 64 == 0
  {
    (-512 + 64 * (k / 17), -512 + 64 * (k % 17))
  }

  /** The index of the sample at a grid offset. */
  function SampleIndex(dx: int, dz: int): (k: nat)
    requires -512 <= dx <= 512 && -512 <= dz <= 512
    requires dx % 64 == 0 && dz % 64 == 0
    ensures k < 289
  {
    ((dx + 512) / 64) * 17 + (dz + 512) / 64
  }

  /** Row i, column j of the sample grid is sample i * 17 + j. */
  lemma SampleRowColumn(i: nat, j: nat)
    requires i < 17 && j < 17
    ensures i * 17 + j < 289
    ensures (i * 17 + j) / 17 == i
    ensures (i * 17 + j) % 17 == j
  {
  }

  /** Sample 17 * i + j lies at offset (-512 + 64 * i, -512 + 64 * j): row i, column j. */
  lemma SampleAt(k: nat, i: nat, j: nat)
    requires i < 17 && j < 17 && k == 17 * i + j
    ensures k < 289 && SampleOffset(k) == (-512 + 64 * i, -512 + 64 * j)
  {
    SampleRowColumn(i, j);
  }

  /** The samples are exactly the multiples of 64 in [-512, 512] on both axes, each visited once. */
  lemma SamplesEnumerateGrid(dx: int, dz: int, k: nat)
    requires -512 <= dx <= 512 && -512 <= dz <= 512
    requires dx % 64 == 0 && dz % 64 == 0
    requires k < 289
    ensures SampleOffset(SampleIndex(dx, dz)) == (dx, dz)
    ensures SampleOffset(k) == (dx, dz) <==> k == SampleIndex(dx, dz)
  {
    var i, j := (dx + 512) / 64, (dz + 512) / 64;
    SampleRowColumn(i, j);
    if SampleOffset(k) == (dx, dz) {
      var i', j' := k / 17, k % 17;
      assert k == i' * 17 + j';
    }
  }

  /** `dx * dx + dz * dz` for the k-th sample, in `int` arithmetic (it cannot overflow). */
  function SampleSquaredDistance(k: nat): (r: int)
    requires k < 289
  {
    var o := SampleOffset(k);
    o.0 * o.0 + o.1 * o.1
  }

  /** `Math.sqrt(dx * dx + dz * dz)` for the k-th sample. */
  function SampleDistance(p: Primitives, k: nat): real
    requires k < 289
  {
    p.sqrt(SampleSquaredDistance(k) as real)
  }

  /** `findNearestPlateId` of a world, as a function of the point. */
  function PlateLookup(p: Primitives, seed: Long64): (real, real) -> int {
    (a: real, b: real) => NearestPlateId(p, seed, a, b)
  }

  /** `nearest` is the world's plate lookup: it agrees with `findNearestPlateId` at every point. */
  ghost predicate IsPlateLookup(nearest: (real, real) -> int, p: Primitives, seed: Long64) {
    forall a, b {:trigger NearestPlateId(p, seed, a, b)} :: nearest(a, b) == NearestPlateId(p, seed, a, b)
  }

  lemma PlateLookupIsPlateLookup(p: Primitives, seed: Long64)
    ensures IsPlateLookup(PlateLookup(p, seed), p, seed)
  {
  }

  /** The sample at offset k lies on a plate other than the one at (x, z), plates being found by `nearest`. */
  predicate SampleDiffers(nearest: (real, real) -> int, x: real, z: real, k: nat)
    requires k < 289
  {
    var o := SampleOffset(k);
    nearest(x + o.0 as real, z + o.1 as real) != nearest(x, z)
  }

  /** `Math.min(best, distance)` with `None` standing for the `Double.MAX_VALUE` start value. */
  function MinWith(best: Option<real>, distance: real): (r: real)
    ensures r <= distance
    ensures best.Some? ==> r <= best.value && (r == best.value || r == distance)
    ensures best.None? ==> r == distance
  {
    match best
    case None => distance
    case Some(b) => Min(b, distance)
  }

  /**
   * The smallest of the first n distances whose sample lies on another plate, or `None` when
   * there is none: what `minBoundaryDistance` holds after n iterations of the inner loop.
   */
  function MinDiffering(ds: seq<real>, differs: seq<bool>, n: nat): Option<real>
    requires n <= |ds| && n <= |differs|
  {
    if n == 0 then None
    else
      var best := MinDiffering(ds, differs, n - 1);
      if differs[n - 1] then Some(MinWith(best, ds[n - 1])) else best
  }

  /** `MinDiffering` is empty exactly when no sample differs, and otherwise the least distance of a differing sample. */
  lemma {:induction false} MinDifferingIsMinimum(ds: seq<real>, differs: seq<bool>, n: nat)
    requires n <= |ds| && n <= |differs|
    ensures var r := MinDiffering(ds, differs, n);
      (r.None? <==> forall k :: 0 <= k < n ==> !differs[k]) &&
      (r.Some? ==> exists k :: 0 <= k < n && differs[k] && r.value == ds[k]) &&
      (r.Some? ==> forall k :: 0 <= k < n && differs[k] ==> r.value <= ds[k])
  {
    if n > 0 {
      MinDifferingIsMinimum(ds, differs, n - 1);
      var best := MinDiffering(ds, differs, n - 1);
      var r := MinDiffering(ds, differs, n);
      if differs[n - 1] {
        if best.Some? && r.value == best.value {
          var k :| 0 <= k < n - 1 && differs[k] && best.value == ds[k];
          assert 0 <= k < n && differs[k] && r.value == ds[k];
        } else {
          assert r.value == ds[n - 1];
        }
      }
    }
  }

  /** The distances of the 289 samples, in visiting order. */
  function SampleDistances(p: Primitives): (ds: seq<real>)
    ensures |ds| == 289
    ensures forall k :: 0 <= k < 289 ==> ds[k] == SampleDistance(p, k)
  {
    seq(289, k requires 0 <= k < 289 => SampleDistance(p, k))
  }

  /** Which of the 289 samples lie on another plate than (x, z). */
  function SamplesDiffering(nearest: (real, real) -> int, x: real, z: real): (s: seq<bool>)
    ensures |s| == 289
    ensures forall k :: 0 <= k < 289 ==> s[k] == SampleDiffers(nearest, x, z, k)
  {
    seq(289, k requires 0 <= k < 289 => SampleDiffers(nearest, x, z, k))
  }

  /** `getDistanceToBoundary`, as a value: the radius 512 when no sampled point lies on another plate. */
  function BoundaryDistance(p: Primitives, seed: Long64, x: real, z: real): real {
    match MinDiffering(SampleDistances(p), SamplesDiffering(PlateLookup(p, seed), x, z), 289)
    case None => 512.0
    case Some(m) => m
  }

  /** The centre sample (offset (0, 0)) is on the point's own plate and is never counted. */
  lemma CentreSampleNeverDiffers(nearest: (real, real) -> int, x: real, z: real)
    ensures SampleOffset(144) == (0, 0)
    ensures !SampleDiffers(nearest, x, z, 144)
  {
    var o := SampleOffset(144);
    assert o == (0, 0);
    assert x + o.0 as real == x && z + o.1 as real == z;
  }

  /** |u| <= 8 gives 0 <= u * u <= 64, and u * u >= 1 unless u is zero. */
  lemma SmallSquare(u: int)
    requires -8 <= u <= 8
    ensures 0 <= u * u <= 64
    ensures u != 0 ==> 1 <= u * u
  {
    var a := Abs(u);
    assert u * u == a * a;
    assert a * a <= 8 * a;
  }

  /** Every sample other than the centre is between 64 and 512 * sqrt 2 away: its squared distance is in [4096, 524288]. */
  lemma SampleSquaredDistanceBounds(k: nat)
    requires k < 289 && k != 144
    ensures 4096 <= SampleSquaredDistance(k) <= 524288
  {
    var u, v := k / 17 - 8, k % 17 - 8;
    var o := SampleOffset(k);
    assert o.0 == 64 * u && o.1 == 64 * v;
    assert o.0 * o.0 == 4096 * (u * u);
    assert o.1 * o.1 == 4096 * (v * v);
    SmallSquare(u);
    SmallSquare(v);
    assert u != 0 || v != 0;
  }

  /** The distance to a sample other than the centre is between 64 and 512 * sqrt 2 (that is, `sqrt(524288)`). */
  lemma SampleDistanceBounds(p: Primitives, k: nat)
    requires SqrtIsExact(p.sqrt)
    requires k < 289 && k != 144
    ensures 64.0 <= SampleDistance(p, k) <= p.sqrt(524288.0)
  {
    SampleSquaredDistanceBounds(k);
    var r := SampleSquaredDistance(k) as real;
    assert 64.0 * 64.0 == 4096.0 <= r <= 524288.0;
    SqrtOfSquare(p.sqrt, 64.0);
    SqrtMonotone(p.sqrt, 4096.0, r);
    SqrtMonotone(p.sqrt, r, 524288.0);
  }

  /**
   * The boundary distance is the radius 512 when no sample lies on another plate, and otherwise
   * the distance to the nearest such sample.
   */
  lemma BoundaryDistanceIsNearestDiffering(p: Primitives, seed: Long64, x: real, z: real)
    ensures (forall k :: 0 <= k < 289 ==> !SampleDiffers(PlateLookup(p, seed), x, z, k)) ==>
      BoundaryDistance(p, seed, x, z) == 512.0
    ensures forall k :: 0 <= k < 289 && SampleDiffers(PlateLookup(p, seed), x, z, k) ==>
      BoundaryDistance(p, seed, x, z) <= SampleDistance(p, k)
    ensures (exists k :: 0 <= k < 289 && SampleDiffers(PlateLookup(p, seed), x, z, k)) ==>
      exists k :: 0 <= k < 289 && SampleDiffers(PlateLookup(p, seed), x, z, k) &&
        BoundaryDistance(p, seed, x, z) == SampleDistance(p, k)
  {
    var ds, differs := SampleDistances(p), SamplesDiffering(PlateLookup(p, seed), x, z);
    MinDifferingIsMinimum(ds, differs, 289);
  }

  /** A boundary distance other than the radius is the distance of some sample off the centre. */
  lemma BoundaryDistanceOffCentre(p: Primitives, seed: Long64, x: real, z: real)
    ensures var d := BoundaryDistance(p, seed, x, z);
      d == 512.0 || exists k :: 0 <= k < 289 && k != 144 && d == SampleDistance(p, k)
  {
    var ds, differs := SampleDistances(p), SamplesDiffering(PlateLookup(p, seed), x, z);
    MinDifferingIsMinimum(ds, differs, 289);
    var m := MinDiffering(ds, differs, 289);
    if m.Some? {
      var k :| 0 <= k < 289 && differs[k] && m.value == ds[k];
      CentreSampleNeverDiffers(PlateLookup(p, seed), x, z);
      assert k != 144;
    }
  }

  /**
   * Either the radius 512 or between 64 and 512 * sqrt 2: the boundary distance is never zero
   * and may exceed the search radius (512 * sqrt 2 is `sqrt(524288)`).
   */
  lemma BoundaryDistanceRange(p: Primitives, seed: Long64, x: real, z: real)
    requires SqrtIsExact(p.sqrt)
    ensures var d := BoundaryDistance(p, seed, x, z);
      d == 512.0 || 64.0 <= d <= p.sqrt(524288.0)
  {
    BoundaryDistanceOffCentre(p, seed, x, z);
    var d := BoundaryDistance(p, seed, x, z);
    if d != 512.0 {
      OffCentreDistanceRange(p, d);
    }
  }

  /** A distance to some sample off the centre is at least 64 and its square at most 524288. */
  lemma OffCentreDistanceRange(p: Primitives, d: real)
    requires SqrtIsExact(p.sqrt)
    requires exists k :: 0 <= k < 289 && k != 144 && d == SampleDistance(p, k)
    ensures 64.0 <= d <= p.sqrt(524288.0)
  {
    var k :| 0 <= k < 289 && k != 144 && d == SampleDistance(p, k);
    SampleDistanceBounds(p, k);
  }

  // ---------------------------------------------------------------- the caching object

  /** After the first n entries, the scan holds the first smallest distance so far and the id beside it (`None` is `Double.MAX_VALUE`). */
  ghost predicate Scanned(ds: seq<real>, ids: seq<int>, n: nat, best: Option<real>, id: int)
    requires n <= |ds| && |ds| == |ids|
  {
    if n == 0 then best == None && id == 0
    else best == Some(ds[FirstMinIndex(ds, n)]) && id == ids[FirstMinIndex(ds, n)]
  }

  /** One step of the scan: entry n replaces the best so far exactly when it is strictly smaller. */
  lemma ScanStep(ds: seq<real>, ids: seq<int>, n: nat, best: Option<real>, id: int)
    requires n < |ds| && |ds| == |ids| && Scanned(ds, ids, n, best, id)
    ensures best.None? || ds[n] < best.value ==> Scanned(ds, ids, n + 1, Some(ds[n]), ids[n])
    ensures !(best.None? || ds[n] < best.value) ==> Scanned(ds, ids, n + 1, best, id)
  {
  }

  /** A completed scan of the nine candidates yields `NearestPlateId`. */
  lemma ScanFindsNearest(p: Primitives, seed: Long64, x: real, z: real)
    ensures NearestPlateId(p, seed, x, z) == CandidateIds(x, z)[FirstMinIndex(CandidateDistances(p, seed, x, z), 9)]
  {
  }

  /** (cx, cz) is the cell of candidate k around (x, z): offset (k / 3 - 1, k % 3 - 1) from the grid cell of (x, z). */
  predicate IsCandidateCell(x: real, z: real, k: nat, cx: int, cz: int) {
    k < 9 && cx == Wrap32(GridCell(x) + k / 3 - 1) && cz == Wrap32(GridCell(z) + k % 3 - 1)
  }

  /** Candidate 3 * (dx + 1) + (dz + 1) is the one at offset (dx, dz): the order the loops visit them. */
  lemma CandidateIndex(dx: int, dz: int, k: nat)
    requires -1 <= dx <= 1 && -1 <= dz <= 1 && k == 3 * (dx + 1) + (dz + 1)
    ensures k < 9 && k / 3 == dx + 1 && k % 3 == dz + 1
  {
  }

  /** The cell at offset (dx, dz) from the grid cell of (x, z) is candidate 3 * (dx + 1) + (dz + 1). */
  lemma CandidateCellAt(x: real, z: real, gridX: int, gridZ: int, dx: int, dz: int, k: nat)
    requires gridX == GridCell(x) && gridZ == GridCell(z)
    requires -1 <= dx <= 1 && -1 <= dz <= 1 && k == 3 * (dx + 1) + (dz + 1)
    ensures IsCandidateCell(x, z, k, Wrap32(gridX + dx), Wrap32(gridZ + dz))
  {
    CandidateIndex(dx, dz, k);
    assert gridX + dx == GridCell(x) + k / 3 - 1 && gridZ + dz == GridCell(z) + k % 3 - 1;
  }

  /** The id of candidate k is that of the cell at offset (k / 3 - 1, k % 3 - 1) from the grid cell of (x, z). */
  lemma CandidateIdUnfolds(x: real, z: real, k: nat, cx: int, cz: int)
    requires IsCandidateCell(x, z, k, cx, cz)
    ensures CandidateIds(x, z)[k] == PlateIdOf(cx, cz)
  {
    assert Candidate(GridCell(x), GridCell(z), k) == (cx, cz);
    assert CandidateIds(x, z)[k] == CandidateId(x, z, k);
  }

  /** The centre distance of candidate k is that of the cell at offset (k / 3 - 1, k % 3 - 1) from the grid cell of (x, z). */
  lemma CandidateDistanceUnfolds(p: Primitives, seed: Long64, x: real, z: real, k: nat, cx: int, cz: int)
    requires IsCandidateCell(x, z, k, cx, cz)
    ensures CandidateDistances(p, seed, x, z)[k] == Distance(p, x, z, JitteredCentre(p, CellSeed(seed, cx, cz), cx, cz))
  {
    assert Candidate(GridCell(x), GridCell(z), k) == (cx, cz);
    assert CandidateDistances(p, seed, x, z)[k] == CandidateDistance(p, seed, x, z, k);
  }

  /** The distance the inner loop body computes for offset (dx, dz) is that of sample k. */
  lemma SampleDistanceUnfolds(p: Primitives, k: nat, dx: int, dz: int)
    requires k < 289 && SampleOffset(k) == (dx, dz)
    ensures SampleDistances(p)[k] == p.sqrt((dx * dx + dz * dz) as real)
  {
    assert SampleSquaredDistance(k) == dx * dx + dz * dz;
    assert SampleDistances(p)[k] == SampleDistance(p, k);
  }

  /** The plate comparison the inner loop body makes at (checkX, checkZ), offset (dx, dz) from (x, z), is that of sample k. */
  lemma SampleDiffersUnfolds(nearest: (real, real) -> int, x: real, z: real, k: nat, dx: int, dz: int, checkX: real, checkZ: real)
    requires k < 289 && SampleOffset(k) == (dx, dz)
    requires checkX == x + dx as real && checkZ == z + dz as real
    ensures SamplesDiffering(nearest, x, z)[k] == (nearest(checkX, checkZ) != nearest(x, z))
  {
    assert SamplesDiffering(nearest, x, z)[k] == SampleDiffers(nearest, x, z, k);
  }

  /** Two plate lookups of the same world agree at every point. */
  lemma PlateLookupsAgree(n1: (real, real) -> int, n2: (real, real) -> int, p: Primitives, seed: Long64)
    requires IsPlateLookup(n1, p, seed) && IsPlateLookup(n2, p, seed)
    ensures forall a, b :: n1(a, b) == n2(a, b)
  {
    forall a, b
      ensures n1(a, b) == n2(a, b)
    {
      assert n1(a, b) == NearestPlateId(p, seed, a, b);
    }
  }

  /** Two plate lookups that agree at every point find the same differing samples. */
  lemma SamplesDifferingCongruent(n1: (real, real) -> int, n2: (real, real) -> int, x: real, z: real)
    requires forall a, b :: n1(a, b) == n2(a, b)
    ensures SamplesDiffering(n1, x, z) == SamplesDiffering(n2, x, z)
  {
    assert forall k :: 0 <= k < 289 ==> SampleDiffers(n1, x, z, k) == SampleDiffers(n2, x, z, k);
  }

  /** The boundary distance computed with any lookup that agrees with the world's. */
  lemma BoundaryDistanceByLookup(nearest: (real, real) -> int, p: Primitives, seed: Long64, x: real, z: real)
    requires IsPlateLookup(nearest, p, seed)
    ensures BoundaryDistance(p, seed, x, z) ==
      match MinDiffering(SampleDistances(p), SamplesDiffering(nearest, x, z), 289)
      case None => 512.0
      case Some(m) => m
  {
    PlateLookupIsPlateLookup(p, seed);
    PlateLookupsAgree(nearest, PlateLookup(p, seed), p, seed);
    SamplesDifferingCongruent(nearest, PlateLookup(p, seed), x, z);
  }

  /** `PlateSystem`: the world seed, the library primitives, and the cache of generated plates by id. */
  class PlateSystem {
    const seed: Long64
    const prims: Primitives
    var plateCache: map<int, PlateData>

    /** Cache coherence: every cached plate is the plate `generatePlateData` builds for its id. */
    ghost predicate Valid()
      reads this
    {
      forall id :: id in plateCache ==> plateCache[id] == GeneratePlateData(prims, seed, id)
    }

    /** A plate system for a world seed starts with an empty cache. */
    constructor (seed: Long64, prims: Primitives)
      ensures this.seed == seed && this.prims == prims
      ensures plateCache == map[]
      ensures Valid()
    {
      this.seed := seed;
      this.prims := prims;
      plateCache := map[];
    }

    /** `findNearestPlateId`: scans the 3x3 block of cells around (x, z), keeping the first strictly nearest centre. */
    method FindNearestPlateId(x: real, z: real) returns (nearestPlateId: int)
      ensures nearestPlateId == NearestPlateId(prims, seed, x, z)
    {
      var minDistance: Option<real> := None;
      nearestPlateId := 0;
      var gridX := GridCell(x);
      var gridZ := GridCell(z);
      ghost var ds, ids := CandidateDistances(prims, seed, x, z), CandidateIds(x, z);
      ghost var k := 0;
      var dx := -1;
      while dx <= 1
        invariant -1 <= dx <= 2 && k == 3 * (dx + 1)
        invariant Scanned(ds, ids, k, minDistance, nearestPlateId)
      {
        var dz := -1;
        while dz <= 1
          invariant -1 <= dz <= 2 && dx <= 1 && k == 3 * (dx + 1) + (dz + 1)
          invariant Scanned(ds, ids, k, minDistance, nearestPlateId)
        {
          minDistance, nearestPlateId := VisitCell(x, z, gridX, gridZ, dx, dz, k, ds, ids, minDistance, nearestPlateId);
          dz := dz + 1;
          k := k + 1;
        }
        dx := dx + 1;
      }
      ScanFindsNearest(prims, seed, x, z);
    }

    /**
     * One cell of `findNearestPlateId`'s scan: the cell at offset (dx, dz) from the grid cell of
     * (x, z) replaces the best so far when its centre is strictly nearer.
     */
    method VisitCell(x: real, z: real, gridX: int, gridZ: int, dx: int, dz: int, ghost k: nat,
                     ghost ds: seq<real>, ghost ids: seq<int>, minDistance: Option<real>, nearestPlateId: int)
      returns (minDistance': Option<real>, nearestPlateId': int)
      requires gridX == GridCell(x) && gridZ == GridCell(z)
      requires -1 <= dx <= 1 && -1 <= dz <= 1 && k == 3 * (dx + 1) + (dz + 1)
      requires |ds| == 9 && |ids| == 9
      requires ds[k] == CandidateDistances(prims, seed, x, z)[k] && ids[k] == CandidateIds(x, z)[k]
      requires Scanned(ds, ids, k, minDistance, nearestPlateId)
      ensures Scanned(ds, ids, k + 1, minDistance', nearestPlateId')
    {
      var checkGridX := Wrap32(gridX + dx);
      var checkGridZ := Wrap32(gridZ + dz);
      CandidateCellAt(x, z, gridX, gridZ, dx, dz, k);
      minDistance', nearestPlateId' := VisitCandidate(x, z, checkGridX, checkGridZ, k, ds, ids, minDistance, nearestPlateId);
    }

    /** `VisitCell` once the cell (checkGridX, checkGridZ) of candidate k is known. */
    method VisitCandidate(x: real, z: real, checkGridX: int, checkGridZ: int, ghost k: nat,
                          ghost ds: seq<real>, ghost ids: seq<int>, minDistance: Option<real>, nearestPlateId: int)
      returns (minDistance': Option<real>, nearestPlateId': int)
      requires IsCandidateCell(x, z, k, checkGridX, checkGridZ)
      requires |ds| == 9 && |ids| == 9
      requires ds[k] == CandidateDistances(prims, seed, x, z)[k] && ids[k] == CandidateIds(x, z)[k]
      requires Scanned(ds, ids, k, minDistance, nearestPlateId)
      ensures Scanned(ds, ids, k + 1, minDistance', nearestPlateId')
    {
      CandidateIdUnfolds(x, z, k, checkGridX, checkGridZ);
      var distance := CandidateCellDistance(x, z, checkGridX, checkGridZ, k);
      minDistance', nearestPlateId' := KeepNearer(ds, ids, k, distance, checkGridX, checkGridZ, minDistance, nearestPlateId);
    }

    /**
     * The update of `findNearestPlateId`'s loop body: the cell (checkGridX, checkGridZ), at the
     * given distance, becomes the nearest so far when it is strictly nearer than the best.
     */
    method KeepNearer(ghost ds: seq<real>, ghost ids: seq<int>, ghost k: nat, distance: real,
                      checkGridX: int, checkGridZ: int, minDistance: Option<real>, nearestPlateId: int)
      returns (minDistance': Option<real>, nearestPlateId': int)
      requires k < |ds| && |ds| == |ids|
      requires ds[k] == distance && ids[k] == PlateIdOf(checkGridX, checkGridZ)
      requires Scanned(ds, ids, k, minDistance, nearestPlateId)
      ensures Scanned(ds, ids, k + 1, minDistance', nearestPlateId')
    {
      ScanStep(ds, ids, k, minDistance, nearestPlateId);
      minDistance', nearestPlateId' := minDistance, nearestPlateId;
      if minDistance.None? || distance < minDistance.value {
        minDistance' := Some(distance);
        nearestPlateId' := Wrap32(Wrap32(checkGridX * 31) + checkGridZ);
        PlateIdOfTwoSteps(checkGridX, checkGridZ);
      }
    }

    /** The loop body of `findNearestPlateId` for one cell: the distance from (x, z) to the cell's jittered centre. */
    method CellDistance(x: real, z: real, checkGridX: int, checkGridZ: int) returns (distance: real)
      ensures distance == Distance(prims, x, z, JitteredCentre(prims, CellSeed(seed, checkGridX, checkGridZ), checkGridX, checkGridZ))
    {
      var random := CellSeed(seed, checkGridX, checkGridZ);
      var offsetX := prims.nextDouble(random, 0) * 2048.0 - 1024.0;
      var offsetZ := prims.nextDouble(random, 1) * 2048.0 - 1024.0;
      var centerX := Wrap32(checkGridX * 2048) as real + offsetX;
      var centerZ := Wrap32(checkGridZ * 2048) as real + offsetZ;
      distance := Distance(prims, x, z, (centerX, centerZ));
    }

    /** `CellDistance` for the cell of candidate k is the k-th candidate distance. */
    method CandidateCellDistance(x: real, z: real, checkGridX: int, checkGridZ: int, ghost k: nat) returns (distance: real)
      requires IsCandidateCell(x, z, k, checkGridX, checkGridZ)
      ensures distance == CandidateDistances(prims, seed, x, z)[k]
    {
      distance := CellDistance(x, z, checkGridX, checkGridZ);
      CandidateDistanceUnfolds(prims, seed, x, z, k, checkGridX, checkGridZ);
    }

    /**
     * `getPlateAt`: the plate of the nearest id, generated and cached on first use; the cache
     * gains at most that one entry.
     */
    method GetPlateAt(x: real, z: real) returns (plate: PlateData)
      requires Valid()
      modifies this
      ensures Valid()
      ensures plate == PlateAt(prims, seed, x, z)
      ensures plateCache == old(plateCache)[plate.plateId := plate]
    {
      var plateId := FindNearestPlateId(x, z);
      if plateId !in plateCache {
        plateCache := plateCache[plateId := GeneratePlateData(prims, seed, plateId)];
      }
      plate := plateCache[plateId];
    }

    /**
     * One sample of `getDistanceToBoundary`'s grid: looks up the plate at offset (dx, dz) and, when it
     * is not the current plate, folds the offset's length into the running minimum.
     */
    method VisitSample(x: real, z: real, currentId: int, dx: int, dz: int, ghost k: nat,
                       ghost nearest: (real, real) -> int, ghost ds: seq<real>, ghost differs: seq<bool>, best: Option<real>)
      returns (best': Option<real>)
      requires Valid() && IsPlateLookup(nearest, prims, seed)
      requires k < 289 && SampleOffset(k) == (dx, dz)
      requires currentId == nearest(x, z)
      requires |ds| == 289 && |differs| == 289
      requires ds[k] == SampleDistances(prims)[k] && differs[k] == SamplesDiffering(nearest, x, z)[k]
      requires best == MinDiffering(ds, differs, k)
      modifies this
      ensures Valid() && old(plateCache).Keys <= plateCache.Keys
      ensures best' == MinDiffering(ds, differs, k + 1)
    {
      var checkX, checkZ := x + dx as real, z + dz as real;
      var checkPlate := GetPlateAt(checkX, checkZ);
      SampleDistanceUnfolds(prims, k, dx, dz);
      SampleDiffersUnfolds(nearest, x, z, k, dx, dz, checkX, checkZ);
      assert differs[k] == (checkPlate.plateId != currentId);
      assert MinDiffering(ds, differs, k + 1) == if differs[k] then Some(MinWith(best, ds[k])) else best;
      best' := best;
      if checkPlate.plateId != currentId {
        var d := prims.sqrt((dx * dx + dz * dz) as real);
        assert d == ds[k];
        best' := Some(MinWith(best, d));
      }
    }

    /**
     * `getDistanceToBoundary`: samples a 17x17 grid of points 64 apart around (x, z) and returns
     * the distance to the nearest one on another plate, or 512 when there is none.
     */
    method GetDistanceToBoundary(x: real, z: real) returns (distance: real)
      requires Valid()
      modifies this
      ensures Valid()
      ensures distance == BoundaryDistance(prims, seed, x, z)
      ensures old(plateCache).Keys <= plateCache.Keys
    {
      var currentPlate := GetPlateAt(x, z);
      PlateLookupIsPlateLookup(prims, seed);
      ghost var nearest :| IsPlateLookup(nearest, prims, seed);
      var minBoundaryDistance := ScanGrid(x, z, currentPlate.plateId, nearest);
      BoundaryDistanceByLookup(nearest, prims, seed, x, z);
      distance := if minBoundaryDistance.None? then 512.0 else minBoundaryDistance.value;
    }

    /** The two loops of `getDistanceToBoundary`: the least distance of a sample on a plate other than `currentId`'s. */
    method ScanGrid(x: real, z: real, currentId: int, ghost nearest: (real, real) -> int)
      returns (minBoundaryDistance: Option<real>)
      requires Valid() && IsPlateLookup(nearest, prims, seed) && currentId == nearest(x, z)
      modifies this
      ensures Valid() && old(plateCache).Keys <= plateCache.Keys
      ensures minBoundaryDistance == MinDiffering(SampleDistances(prims), SamplesDiffering(nearest, x, z), 289)
    {
      minBoundaryDistance := None;
      ghost var ds, differs := SampleDistances(prims), SamplesDiffering(nearest, x, z);
      var dx := -512;
      ghost var i, k := 0, 0;
      while dx <= 512
        invariant 0 <= i <= 17 && dx == -512 + 64 * i && k == 17 * i
        invariant Valid() && old(plateCache).Keys <= plateCache.Keys
        invariant minBoundaryDistance == MinDiffering(ds, differs, k)
      {
        minBoundaryDistance := ScanRow(x, z, currentId, dx, i, k, nearest, ds, differs, minBoundaryDistance);
        dx := dx + 64;
        i, k := i + 1, k + 17;
      }
      assert k == 289;
    }

    /** The inner loop of `getDistanceToBoundary`: the 17 samples of row i, at x offset dx. */
    method ScanRow(x: real, z: real, currentId: int, dx: int, ghost i: nat, ghost k: nat,
                   ghost nearest: (real, real) -> int, ghost ds: seq<real>, ghost differs: seq<bool>, best: Option<real>)
      returns (best': Option<real>)
      requires Valid() && IsPlateLookup(nearest, prims, seed)
      requires i < 17 && dx == -512 + 64 * i && k == 17 * i
      requires currentId == nearest(x, z)
      requires |ds| == 289 && |differs| == 289
      requires forall j :: k <= j < k + 17 ==> ds[j] == SampleDistances(prims)[j]
      requires forall j :: k <= j < k + 17 ==> differs[j] == SamplesDiffering(nearest, x, z)[j]
      requires best == MinDiffering(ds, differs, k)
      modifies this
      ensures Valid() && old(plateCache).Keys <= plateCache.Keys
      ensures best' == MinDiffering(ds, differs, k + 17)
    {
      best' := best;
      var dz := -512;
      ghost var j := 0;
      while dz <= 512
        invariant 0 <= j <= 17 && dz == -512 + 64 * j
        invariant Valid() && old(plateCache).Keys <= plateCache.Keys
        invariant best' == MinDiffering(ds, differs, k + j)
      {
        SampleAt(k + j, i, j);
        best' := VisitSample(x, z, currentId, dx, dz, k + j, nearest, ds, differs, best');
        dz := dz + 64;
        j := j + 1;
      }
      assert j == 17;
    }
  }
}

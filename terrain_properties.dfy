/** The immutable bundle of terrain facts at one coordinate and its strict boundary-proximity test. */
module TerrainPropertiesRecord {
  import opened CrustTypeEnum
  import opened PlateDataRecord
  import opened PlateBoundaryDensity

  /** The four final fields; the datatype's destructors are the getters. */
  datatype TerrainProperties = TerrainProperties(
    plateData: PlateData,
    crustType: CrustType,
    terrainHeight: real,
    boundaryDistance: real)
  {
    /** `isNearBoundary`: strictly closer to a boundary than the threshold. */
    predicate IsNearBoundary(threshold: real) {
      boundaryDistance < threshold
    }
  }

  /** A coordinate is never near a boundary at exactly its own boundary distance. */
  lemma NotNearAtOwnDistance(t: TerrainProperties)
    ensures !t.IsNearBoundary(t.boundaryDistance)
  {
  }

  /** Near at one threshold means near at every larger threshold. */
  lemma NearMonotoneInThreshold(t: TerrainProperties, threshold: real, threshold': real)
    requires threshold <= threshold' && t.IsNearBoundary(threshold)
    ensures t.IsNearBoundary(threshold')
  {
  }

  /** For a positive threshold, being near a boundary is exactly having a positive boundary strength. */
  lemma NearIffPositiveStrength(t: TerrainProperties, threshold: real)
    requires 0.0 < threshold
    ensures t.IsNearBoundary(threshold) <==> BoundaryStrength(t.boundaryDistance, threshold) > 0.0
  {
    StrengthPositiveIff(t.boundaryDistance, threshold);
  }
}

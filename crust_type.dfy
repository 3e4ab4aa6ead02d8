/** The two crust classes of a tectonic plate, each with three fixed physical constants. */
module CrustTypeEnum {
  datatype CrustType = Oceanic | Continental {
    function Density(): real {
      match this
      case Oceanic => 0.8
      case Continental => 0.4
    }

    function SpecificGravity(): real {
      match this
      case Oceanic => 2.9
      case Continental => 2.7
    }

    function ElevationModifier(): real {
      match this
      case Oceanic => -0.3
      case Continental => 0.2
    }
  }

  /** The constants each enum constant is built with. */
  lemma CrustConstants()
    ensures Oceanic.Density() == 0.8 && Oceanic.SpecificGravity() == 2.9 && Oceanic.ElevationModifier() == -0.3
    ensures Continental.Density() == 0.4 && Continental.SpecificGravity() == 2.7 && Continental.ElevationModifier() == 0.2
  {
  }

  /** There are exactly two crust types. */
  lemma ExactlyTwoCrustTypes(c: CrustType)
    ensures c == Oceanic || c == Continental
    ensures Oceanic != Continental
  {
  }

  /** "Dense" against "less dense": oceanic crust has the larger density and specific gravity. */
  lemma OceanicIsDenser()
    ensures Oceanic.Density() > Continental.Density()
    ensures Oceanic.SpecificGravity() > Continental.SpecificGravity()
  {
  }

  /** "Low elevation" against "higher elevation": the oceanic modifier lowers terrain, the continental one raises it. */
  lemma ElevationModifierSigns()
    ensures Oceanic.ElevationModifier() < 0.0 < Continental.ElevationModifier()
  {
  }
}

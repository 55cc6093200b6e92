/** Values shared by every part of the soil-resolution cascade: the property
    dictionary, the soil classes and the provider tags. */
module SoilTypes {

  datatype Option<+T> = None | Some(value: T)

  /** A key of the property dictionary. A SoilGrids entry without a "name"
      field is stored under Python's None, which is `Unnamed` here. */
  datatype PropKey = Named(name: string) | Unnamed

  /** The property dictionary: property name to value (percent for texture
      fractions, pH units for phh2o). */
  type Props = map<PropKey, real>

  const Clay: PropKey := Named("clay")
  const Sand: PropKey := Named("sand")
  const Silt: PropKey := Named("silt")
  const PhH2O: PropKey := Named("phh2o")

  /** The three texture fractions, which arrive in g/kg and are divided by 10. */
  predicate IsTexture(k: PropKey) {
    k == Clay || k == Sand || k == Silt
  }

  predicate HasTexture(p: Props) {
    Clay in p && Sand in p && Silt in p
  }

  function TextureSum(p: Props): real
    requires HasTexture(p)
  {
    p[Clay] + p[Sand] + p[Silt]
  }

  /** Python truthiness of an `Optional[Dict]`: present and non-empty. */
  predicate Truthy(sg: Option<Props>) {
    sg.Some? && sg.value != map[]
  }

  /** `dict.get(k, default)`. */
  function Get(p: Props, k: PropKey, default: real): real {
    if k in p then p[k] else default
  }

  /** Soil classes the cascade can report. */
  datatype SoilType =
    | Loamy | Clayey | Sandy | Silty     // texture families
    | Saline | Alkaline                  // salinity / alkalinity refinement
    | Red | Black | Laterite | Peaty     // land-cover categories
  {
    function Name(): string {
      match this
      case Loamy => "Loamy"
      case Clayey => "Clayey"
      case Sandy => "Sandy"
      case Silty => "Silty"
      case Saline => "Saline"
      case Alkaline => "Alkaline"
      case Red => "Red"
      case Black => "Black"
      case Laterite => "Laterite"
      case Peaty => "Peaty"
    }
  }

  /** The land-cover categories `{"Red", "Black", "Laterite", "Peaty"}`. */
  predicate IsLandCover(t: SoilType) {
    t == Red || t == Black || t == Laterite || t == Peaty
  }

  /** Entries of the `sources` list. */
  datatype Source = SoilGrids | Mock | Gsas | HeuristicPh | Bhuvan {
    function Name(): string {
      match this
      case SoilGrids => "SoilGrids"
      case Mock => "Mock"
      case Gsas => "GSAS"
      case HeuristicPh => "Heuristic(pH)"
      case Bhuvan => "Bhuvan"
    }
  }

  /** The source compares classes and tags as strings. The names are
      distinct, so comparing tags is comparing their strings (the
      `src not in sources` test), and the land-cover classes are exactly
      those named "Red", "Black", "Laterite" or "Peaty". */
  lemma NamesMatchStrings()
    ensures forall a: SoilType, b: SoilType :: a.Name() == b.Name() ==> a == b
    ensures forall a: Source, b: Source :: a.Name() == b.Name() ==> a == b
    ensures forall t: SoilType :: IsLandCover(t) <==> t.Name() in {"Red", "Black", "Laterite", "Peaty"}
  {
  }
}

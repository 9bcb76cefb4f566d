/** The older `CategoryService.map_to_category` (services/categories.py). It
    keeps its own copy of the keyword table; the copy lists the same clusters
    in the same order, so the two classifiers agree on every text. */
module LegacyCategories {
  import opened Text
  import opened Model
  import Categories

  const FoodWords: seq<string> :=
    ["lunch", "dinner", "breakfast", "restaurant", "cafe", "grocery", "food", "starbucks", "mcdonalds"]
  const TransportWords: seq<string> :=
    ["uber", "taxi", "fuel", "gas", "metro", "bus", "train", "parking", "flight"]
  const EntertainmentWords: seq<string> :=
    ["movie", "cinema", "game", "netflix", "spotify", "concert", "bar", "club"]
  const UtilitiesWords: seq<string> :=
    ["rent", "electricity", "water", "gas", "internet", "phone", "bill"]
  const HealthcareWords: seq<string> :=
    ["doctor", "medicine", "pharmacy", "hospital", "dentist", "clinic"]
  const ShoppingWords: seq<string> :=
    ["shopping", "amazon", "clothes", "shoes", "electronics", "gift"]
  const EducationWords: seq<string> :=
    ["course", "book", "tuition", "school", "workshop"]

  /** This copy's `mappings` dict, in insertion order. */
  const Mappings: seq<Categories.Cluster> := [
    (Food, FoodWords),
    (Transport, TransportWords),
    (Entertainment, EntertainmentWords),
    (Utilities, UtilitiesWords),
    (Healthcare, HealthcareWords),
    (Shopping, ShoppingWords),
    (Education, EducationWords)
  ]

  /** `map_to_category` of the older copy. */
  function MapToCategory(text: string): (c: Category)
    ensures c != Category.Income
    ensures c == Other <==> Categories.NoHit(Mappings, Lower(text))
    ensures forall k :: Categories.FirstHitAt(Mappings, Lower(text), k) ==> c == Mappings[k].0
  {
    SameTable();
    Categories.ClustersLabelled();
    Categories.FirstClusterSpec(Mappings, Lower(text));
    Categories.FirstCluster(Mappings, Lower(text), 0)
  }

  /** The two copies of the table are equal, entry by entry. */
  lemma SameTable()
    ensures Mappings == Categories.Clusters
  {
    assert FoodWords == Categories.FoodKeywords;
    assert TransportWords == Categories.TransportKeywords;
    assert EntertainmentWords == Categories.EntertainmentKeywords;
    assert UtilitiesWords == Categories.UtilitiesKeywords;
    assert HealthcareWords == Categories.HealthcareKeywords;
    assert ShoppingWords == Categories.ShoppingKeywords;
    assert EducationWords == Categories.EducationKeywords;
  }

  /** Both classifiers give the same category for every text. */
  lemma AgreesWithCurrent(text: string)
    ensures MapToCategory(text) == Categories.MapToCategory(text)
  {
    SameTable();
  }

  /** Case does not matter. */
  lemma CaseInsensitive(text: string)
    ensures MapToCategory(text) == MapToCategory(Lower(text))
  {
    LowerIdempotent(text);
  }

  /** The empty text maps to OTHER. */
  lemma EmptyIsOther()
    ensures MapToCategory("") == Other
  {
    assert Lower("") == "";
  }
}

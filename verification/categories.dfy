/** `CategoryService.map_to_category` (finance/services/categories.py):
    lower-case the text, walk the keyword clusters in their fixed order and
    answer the category of the first cluster one of whose keywords occurs in
    the text; OTHER when none does. */
module Categories {
  import opened Text
  import opened Model

  /** A cluster: the category it stands for and its keywords. */
  type Cluster = (Category, seq<string>)

  const FoodKeywords: seq<string> :=
    ["lunch", "dinner", "breakfast", "restaurant", "cafe", "grocery", "food", "starbucks", "mcdonalds"]
  const TransportKeywords: seq<string> :=
    ["uber", "taxi", "fuel", "gas", "metro", "bus", "train", "parking", "flight"]
  const EntertainmentKeywords: seq<string> :=
    ["movie", "cinema", "game", "netflix", "spotify", "concert", "bar", "club"]
  const UtilitiesKeywords: seq<string> :=
    ["rent", "electricity", "water", "gas", "internet", "phone", "bill"]
  const HealthcareKeywords: seq<string> :=
    ["doctor", "medicine", "pharmacy", "hospital", "dentist", "clinic"]
  const ShoppingKeywords: seq<string> :=
    ["shopping", "amazon", "clothes", "shoes", "electronics", "gift"]
  const EducationKeywords: seq<string> :=
    ["course", "book", "tuition", "school", "workshop"]

  /** The mapping table, in the dict's insertion order. */
  const Clusters: seq<Cluster> := [
    (Food, FoodKeywords),
    (Transport, TransportKeywords),
    (Entertainment, EntertainmentKeywords),
    (Utilities, UtilitiesKeywords),
    (Healthcare, HealthcareKeywords),
    (Shopping, ShoppingKeywords),
    (Education, EducationKeywords)
  ]

  /** Cluster `i` of `table` is the first one that hits `text`. */
  predicate FirstHitAt(table: seq<Cluster>, text: string, i: int) {
    0 <= i < |table| && AnyHit(text, table[i].1) &&
    forall j :: 0 <= j < i ==> !AnyHit(text, table[j].1)
  }

  predicate NoHit(table: seq<Cluster>, text: string) {
    forall j :: 0 <= j < |table| ==> !AnyHit(text, table[j].1)
  }

  /** The loop over the table from cluster `i` on, with its early return. */
  function FirstCluster(table: seq<Cluster>, text: string, i: nat): Category
    decreases |table| - i
  {
    if i >= |table| then Other
    else if AnyHit(text, table[i].1) then table[i].0
    else FirstCluster(table, text, i + 1)
  }

  lemma {:induction false} FirstClusterFrom(table: seq<Cluster>, text: string, i: nat)
    requires i <= |table|
    requires forall j :: 0 <= j < i ==> !AnyHit(text, table[j].1)
    ensures NoHit(table, text) ==> FirstCluster(table, text, i) == Other
    ensures forall k :: FirstHitAt(table, text, k) ==> FirstCluster(table, text, i) == table[k].0
    ensures FirstCluster(table, text, i) == Other ||
            exists k :: FirstHitAt(table, text, k) && FirstCluster(table, text, i) == table[k].0
    decreases |table| - i
  {
    if i < |table| && !AnyHit(text, table[i].1) {
      FirstClusterFrom(table, text, i + 1);
    } else if i < |table| {
      assert FirstHitAt(table, text, i);
    }
  }

  /** No cluster is labelled OTHER or INCOME. */
  predicate Labelled(table: seq<Cluster>) {
    forall j :: 0 <= j < |table| ==> table[j].0 != Other && table[j].0 != Category.Income
  }

  /** Searching a table: the answer is the category of the first cluster
      that hits, and OTHER exactly when no cluster hits; it is never
      INCOME. */
  lemma FirstClusterSpec(table: seq<Cluster>, text: string)
    requires Labelled(table)
    ensures FirstCluster(table, text, 0) == Other <==> NoHit(table, text)
    ensures forall k :: FirstHitAt(table, text, k) ==> FirstCluster(table, text, 0) == table[k].0
    ensures FirstCluster(table, text, 0) != Category.Income
  {
    FirstClusterFrom(table, text, 0);
    if !NoHit(table, text) {
      var j :| 0 <= j < |table| && AnyHit(text, table[j].1);
      FirstHitExists(table, text, j);
    }
  }

  /** Some cluster hits, so a first one does. */
  lemma {:induction false} FirstHitExists(table: seq<Cluster>, text: string, j: nat)
    requires j < |table| && AnyHit(text, table[j].1)
    ensures exists k :: FirstHitAt(table, text, k)
    decreases j
  {
    if forall i :: 0 <= i < j ==> !AnyHit(text, table[i].1) {
      assert FirstHitAt(table, text, j);
    } else {
      var i :| 0 <= i < j && AnyHit(text, table[i].1);
      FirstHitExists(table, text, i);
    }
  }

  /** `map_to_category`. */
  function MapToCategory(text: string): (c: Category)
    ensures c != Category.Income
    ensures c == Other <==> NoHit(Clusters, Lower(text))
    ensures forall k :: FirstHitAt(Clusters, Lower(text), k) ==> c == Clusters[k].0
  {
    ClustersLabelled();
    FirstClusterSpec(Clusters, Lower(text));
    FirstCluster(Clusters, Lower(text), 0)
  }

  lemma ClustersLabelled()
    ensures Labelled(Clusters)
  {
    assert Clusters[0].0 == Food && Clusters[1].0 == Transport && Clusters[2].0 == Entertainment;
    assert Clusters[3].0 == Utilities && Clusters[4].0 == Healthcare && Clusters[5].0 == Shopping;
    assert Clusters[6].0 == Education;
  }

  /** Case does not matter: the text and its lower-case form map alike. */
  lemma CaseInsensitive(text: string)
    ensures MapToCategory(text) == MapToCategory(Lower(text))
  {
    LowerIdempotent(text);
  }

  /** The empty text hits no keyword, so it maps to OTHER. */
  lemma EmptyIsOther()
    ensures MapToCategory("") == Other
  {
    assert Lower("") == "";
  }

  /** INCOME is no cluster's label, so no text is classified as income. */
  lemma NeverIncome(text: string)
    ensures MapToCategory(text) != Category.Income
  {
  }

  /** No cluster of the table hits, checked cluster by cluster. */
  lemma NoHitFromClusters(t: string)
    requires !AnyHit(t, FoodKeywords) && !AnyHit(t, TransportKeywords)
    requires !AnyHit(t, EntertainmentKeywords) && !AnyHit(t, UtilitiesKeywords)
    requires !AnyHit(t, HealthcareKeywords) && !AnyHit(t, ShoppingKeywords)
    requires !AnyHit(t, EducationKeywords)
    ensures NoHit(Clusters, t)
  {
  }

  /** Through the contract of `MapToCategory`: no hit gives OTHER. */
  lemma OtherWhenNoHit(text: string)
    requires NoHit(Clusters, Lower(text))
    ensures MapToCategory(text) == Other
  {
  }

  /** Through the contract of `MapToCategory`: the first hit decides. */
  lemma FirstWhenHitAt(text: string, k: int)
    requires FirstHitAt(Clusters, Lower(text), k)
    ensures MapToCategory(text) == Clusters[k].0
  {
  }

  lemma GasBillMissesFood()
    ensures !AnyHit("gas bill", FoodKeywords)
  {
    NoHitByMissingChars("gas bill", FoodKeywords, [1, 0, 1, 0, 0, 1, 0, 1, 0], 0);
  }

  lemma GasBillHitsTransport()
    ensures FirstHitAt(Clusters, "gas bill", 1)
  {
    var t := "gas bill";
    GasBillMissesFood();
    ContainsAt(t, "gas", 0);
    AnyHitIff(t, TransportKeywords);
  }

  /** "gas" is both a transport and a utilities keyword; transport comes first. */
  lemma GasBillIsTransport()
    ensures MapToCategory("gas bill") == Transport
  {
    LowerOfLower("gas bill");
    GasBillHitsTransport();
    FirstWhenHitAt("gas bill", 1);
  }

  lemma BarberMissesFood()
    ensures !AnyHit("barber", FoodKeywords)
  {
    NoHitByMissingChars("barber", FoodKeywords, [0, 0, 4, 2, 0, 0, 0, 0, 0], 0);
  }

  lemma BarberMissesTransport()
    ensures !AnyHit("barber", TransportKeywords)
  {
    NoHitByMissingChars("barber", TransportKeywords, [0, 0, 0, 0, 0, 1, 0, 0, 0], 0);
  }

  lemma BarberHitsEntertainment()
    ensures FirstHitAt(Clusters, "barber", 2)
  {
    var t := "barber";
    BarberMissesFood();
    BarberMissesTransport();
    ContainsAt(t, "bar", 0);
    AnyHitIff(t, EntertainmentKeywords);
  }

  /** Matching is by substring: "barber" hits the keyword "bar". */
  lemma BarberIsEntertainment()
    ensures MapToCategory("barber") == Entertainment
  {
    LowerOfLower("barber");
    BarberHitsEntertainment();
    FirstWhenHitAt("barber", 2);
  }

  lemma HadDinnerAtACafeHitsFood()
    ensures FirstHitAt(Clusters, "had dinner at a cafe", 0)
  {
    var t := "had dinner at a cafe";
    assert t[4..10] == "dinner" by {
      assert |t| == 20 && t[4..10] == [t[4], t[5], t[6], t[7], t[8], t[9]];
    }
    ContainsAt(t, "dinner", 4);
    AnyHitIff(t, FoodKeywords);
  }

  /** A mixed-case sentence: lower-cased, it hits "dinner". */
  lemma DinnerAtCafeIsFood()
    ensures MapToCategory("Had dinner at a cafe") == Food
  {
    assert Lower("Had dinner at a cafe") == "had dinner at a cafe";
    HadDinnerAtACafeHitsFood();
    FirstWhenHitAt("Had dinner at a cafe", 0);
  }

  lemma FoodHitsFood()
    ensures FirstHitAt(Clusters, "food", 0)
  {
    var t := "food";
    ContainsAt(t, "food", 0);
    AnyHitIff(t, FoodKeywords);
  }

  /** The category name "food" is itself a food keyword. */
  lemma FoodNameIsFood()
    ensures MapToCategory("food") == Food
  {
    LowerOfLower("food");
    FoodHitsFood();
    FirstWhenHitAt("food", 0);
  }

  lemma ShoppingMissesFood()
    ensures !AnyHit("shopping", FoodKeywords)
  {
    NoHitByMissingChars("shopping", FoodKeywords, [0, 0, 0, 0, 0, 1, 0, 1, 0], 0);
  }

  lemma ShoppingMissesTransport()
    ensures !AnyHit("shopping", TransportKeywords)
  {
    NoHitByMissingChars("shopping", TransportKeywords, [0, 0, 0, 1, 0, 0, 0, 1, 0], 0);
  }

  lemma ShoppingMissesEntertainment()
    ensures !AnyHit("shopping", EntertainmentKeywords)
  {
    NoHitByMissingChars("shopping", EntertainmentKeywords, [0, 0, 1, 1, 3, 0, 0, 0], 0);
  }

  lemma ShoppingMissesUtilities()
    ensures !AnyHit("shopping", UtilitiesKeywords)
  {
    NoHitByMissingChars("shopping", UtilitiesKeywords, [0, 0, 0, 1, 2, 4, 0], 0);
  }

  lemma ShoppingMissesHealthcare()
    ensures !AnyHit("shopping", HealthcareKeywords)
  {
    NoHitByMissingChars("shopping", HealthcareKeywords, [0, 0, 2, 5, 0, 0], 0);
  }

  lemma ShoppingHitsShopping()
    ensures FirstHitAt(Clusters, "shopping", 5)
  {
    var t := "shopping";
    ShoppingMissesFood();
    ShoppingMissesTransport();
    ShoppingMissesEntertainment();
    ShoppingMissesUtilities();
    ShoppingMissesHealthcare();
    ContainsAt(t, "shopping", 0);
    AnyHitIff(t, ShoppingKeywords);
  }

  /** The category name "shopping" is itself a shopping keyword. */
  lemma ShoppingNameIsShopping()
    ensures MapToCategory("shopping") == Shopping
  {
    LowerOfLower("shopping");
    ShoppingHitsShopping();
    FirstWhenHitAt("shopping", 5);
  }

  lemma TransportMissesFood()
    ensures !AnyHit("transport", FoodKeywords)
  {
    NoHitByMissingChars("transport", FoodKeywords, [0, 0, 0, 1, 0, 0, 0, 4, 0], 0);
  }

  lemma TransportMissesTransport()
    ensures !AnyHit("transport", TransportKeywords)
  {
    NoHitByMissingChars("transport", TransportKeywords, [0, 2, 0, 0, 0, 0, 3, 3, 0], 0);
  }

  lemma TransportMissesEntertainment()
    ensures !AnyHit("transport", EntertainmentKeywords)
  {
    NoHitByMissingChars("transport", EntertainmentKeywords, [0, 0, 0, 1, 4, 0, 0, 0], 0);
  }

  lemma TransportMissesUtilities()
    ensures !AnyHit("transport", UtilitiesKeywords)
  {
    NoHitByMissingChars("transport", UtilitiesKeywords, [1, 0, 0, 0, 0, 1, 0], 0);
  }

  lemma TransportMissesHealthcare()
    ensures !AnyHit("transport", HealthcareKeywords)
  {
    NoHitByMissingChars("transport", HealthcareKeywords, [0, 0, 1, 0, 0, 0], 0);
  }

  lemma TransportMissesShopping()
    ensures !AnyHit("transport", ShoppingKeywords)
  {
    NoHitByMissingChars("transport", ShoppingKeywords, [1, 1, 0, 1, 0, 0], 0);
  }

  lemma TransportMissesEducation()
    ensures !AnyHit("transport", EducationKeywords)
  {
    NoHitByMissingChars("transport", EducationKeywords, [0, 0, 1, 1, 0], 0);
  }

  lemma TransportMissesAll()
    ensures NoHit(Clusters, "transport")
  {
    TransportMissesFood();
    TransportMissesTransport();
    TransportMissesEntertainment();
    TransportMissesUtilities();
    TransportMissesHealthcare();
    TransportMissesShopping();
    TransportMissesEducation();
    NoHitFromClusters("transport");
  }

  /** The category name "transport" contains no keyword. */
  lemma TransportNameIsOther()
    ensures MapToCategory("transport") == Other
  {
    LowerOfLower("transport");
    TransportMissesAll();
    OtherWhenNoHit("transport");
  }

  lemma EntertainmentMissesFood()
    ensures !AnyHit("entertainment", FoodKeywords)
  {
    NoHitByMissingChars("entertainment", FoodKeywords, [0, 0, 0, 2, 0, 0, 0, 0, 1], 0);
  }

  lemma EntertainmentLacksTrain()
    ensures !Contains("entertainment", "train")
  {
    var t, k := "entertainment", "train";
    forall p: nat | p <= |t|
      ensures !SliceAt(t, k, p)
    {
      if p == 0 { MismatchAt(t, k, 0, 0); }
      else if p == 1 { MismatchAt(t, k, 1, 0); }
      else if p == 2 { MismatchAt(t, k, 2, 1); }
      else if p == 3 { MismatchAt(t, k, 3, 0); }
      else if p == 4 { MismatchAt(t, k, 4, 0); }
      else if p == 5 { MismatchAt(t, k, 5, 1); }
      else if p == 6 { MismatchAt(t, k, 6, 0); }
      else if p == 7 { MismatchAt(t, k, 7, 0); }
      else if p == 8 { MismatchAt(t, k, 8, 0); }
    }
  }

  lemma EntertainmentMissesTransport()
    ensures !AnyHit("entertainment", TransportKeywords)
  {
    EntertainmentLacksTrain();
    NoHitByMissingChars("entertainment", TransportKeywords, [0, 2, 0, 0, 4, 0, 0, 0, 0], 0);
  }

  lemma EntertainmentMissesEntertainment()
    ensures !AnyHit("entertainment", EntertainmentKeywords)
  {
    NoHitByMissingChars("entertainment", EntertainmentKeywords, [1, 0, 0, 3, 0, 0, 0, 0], 0);
  }

  lemma EntertainmentLacksRent()
    ensures !Contains("entertainment", "rent")
  {
    var t, k := "entertainment", "rent";
    forall p: nat | p <= |t|
      ensures !SliceAt(t, k, p)
    {
      if p == 0 { MismatchAt(t, k, 0, 0); }
      else if p == 1 { MismatchAt(t, k, 1, 0); }
      else if p == 2 { MismatchAt(t, k, 2, 0); }
      else if p == 3 { MismatchAt(t, k, 3, 0); }
      else if p == 4 { MismatchAt(t, k, 4, 1); }
      else if p == 5 { MismatchAt(t, k, 5, 0); }
      else if p == 6 { MismatchAt(t, k, 6, 0); }
      else if p == 7 { MismatchAt(t, k, 7, 0); }
      else if p == 8 { MismatchAt(t, k, 8, 0); }
      else if p == 9 { MismatchAt(t, k, 9, 0); }
    }
  }

  lemma EntertainmentLacksInternet()
    ensures !Contains("entertainment", "internet")
  {
    var t, k := "entertainment", "internet";
    forall p: nat | p <= |t|
      ensures !SliceAt(t, k, p)
    {
      if p == 0 { MismatchAt(t, k, 0, 0); }
      else if p == 1 { MismatchAt(t, k, 1, 0); }
      else if p == 2 { MismatchAt(t, k, 2, 0); }
      else if p == 3 { MismatchAt(t, k, 3, 0); }
      else if p == 4 { MismatchAt(t, k, 4, 0); }
      else if p == 5 { MismatchAt(t, k, 5, 0); }
    }
  }

  lemma EntertainmentMissesUtilities()
    ensures !AnyHit("entertainment", UtilitiesKeywords)
  {
    EntertainmentLacksRent();
    EntertainmentLacksInternet();
    NoHitByMissingChars("entertainment", UtilitiesKeywords, [0, 1, 0, 0, 0, 0, 0], 0);
  }

  lemma EntertainmentMissesHealthcare()
    ensures !AnyHit("entertainment", HealthcareKeywords)
  {
    NoHitByMissingChars("entertainment", HealthcareKeywords, [0, 2, 0, 0, 0, 0], 0);
  }

  lemma EntertainmentMissesShopping()
    ensures !AnyHit("entertainment", ShoppingKeywords)
  {
    NoHitByMissingChars("entertainment", ShoppingKeywords, [0, 3, 0, 0, 1, 0], 0);
  }

  lemma EntertainmentMissesEducation()
    ensures !AnyHit("entertainment", EducationKeywords)
  {
    NoHitByMissingChars("entertainment", EducationKeywords, [0, 0, 1, 0, 0], 0);
  }

  lemma EntertainmentMissesAll()
    ensures NoHit(Clusters, "entertainment")
  {
    EntertainmentMissesFood();
    EntertainmentMissesTransport();
    EntertainmentMissesEntertainment();
    EntertainmentMissesUtilities();
    EntertainmentMissesHealthcare();
    EntertainmentMissesShopping();
    EntertainmentMissesEducation();
    NoHitFromClusters("entertainment");
  }

  /** The category name "entertainment" contains no keyword. */
  lemma EntertainmentNameIsOther()
    ensures MapToCategory("entertainment") == Other
  {
    LowerOfLower("entertainment");
    EntertainmentMissesAll();
    OtherWhenNoHit("entertainment");
  }

  lemma UtilitiesMissesFood()
    ensures !AnyHit("utilities", FoodKeywords)
  {
    NoHitByMissingChars("utilities", FoodKeywords, [2, 0, 0, 0, 0, 0, 0, 2, 0], 0);
  }

  lemma UtilitiesMissesTransport()
    ensures !AnyHit("utilities", TransportKeywords)
  {
    NoHitByMissingChars("utilities", TransportKeywords, [1, 1, 0, 0, 0, 0, 1, 0, 0], 0);
  }

  lemma UtilitiesMissesEntertainment()
    ensures !AnyHit("utilities", EntertainmentKeywords)
  {
    NoHitByMissingChars("utilities", EntertainmentKeywords, [0, 0, 0, 0, 1, 0, 0, 0], 0);
  }

  lemma UtilitiesMissesUtilities()
    ensures !AnyHit("utilities", UtilitiesKeywords)
  {
    NoHitByMissingChars("utilities", UtilitiesKeywords, [0, 3, 0, 0, 1, 0, 0], 0);
  }

  lemma UtilitiesMissesHealthcare()
    ensures !AnyHit("utilities", HealthcareKeywords)
  {
    NoHitByMissingChars("utilities", HealthcareKeywords, [0, 0, 0, 0, 0, 0], 0);
  }

  lemma UtilitiesMissesShopping()
    ensures !AnyHit("utilities", ShoppingKeywords)
  {
    NoHitByMissingChars("utilities", ShoppingKeywords, [1, 0, 0, 1, 3, 0], 0);
  }

  lemma UtilitiesMissesEducation()
    ensures !AnyHit("utilities", EducationKeywords)
  {
    NoHitByMissingChars("utilities", EducationKeywords, [0, 0, 5, 1, 0], 0);
  }

  lemma UtilitiesMissesAll()
    ensures NoHit(Clusters, "utilities")
  {
    UtilitiesMissesFood();
    UtilitiesMissesTransport();
    UtilitiesMissesEntertainment();
    UtilitiesMissesUtilities();
    UtilitiesMissesHealthcare();
    UtilitiesMissesShopping();
    UtilitiesMissesEducation();
    NoHitFromClusters("utilities");
  }

  /** The category name "utilities" contains no keyword. */
  lemma UtilitiesNameIsOther()
    ensures MapToCategory("utilities") == Other
  {
    LowerOfLower("utilities");
    UtilitiesMissesAll();
    OtherWhenNoHit("utilities");
  }

  lemma HealthcareMissesFood()
    ensures !AnyHit("healthcare", FoodKeywords)
  {
    NoHitByMissingChars("healthcare", FoodKeywords, [1, 0, 0, 2, 2, 0, 0, 0, 0], 0);
  }

  lemma HealthcareMissesTransport()
    ensures !AnyHit("healthcare", TransportKeywords)
  {
    NoHitByMissingChars("healthcare", TransportKeywords, [0, 2, 0, 0, 0, 0, 3, 0, 0], 0);
  }

  lemma HealthcareMissesEntertainment()
    ensures !AnyHit("healthcare", EntertainmentKeywords)
  {
    NoHitByMissingChars("healthcare", EntertainmentKeywords, [0, 1, 0, 0, 0, 1, 0, 2], 0);
  }

  lemma HealthcareMissesUtilities()
    ensures !AnyHit("healthcare", UtilitiesKeywords)
  {
    NoHitByMissingChars("healthcare", UtilitiesKeywords, [2, 6, 0, 0, 0, 0, 0], 0);
  }

  lemma HealthcareMissesHealthcare()
    ensures !AnyHit("healthcare", HealthcareKeywords)
  {
    NoHitByMissingChars("healthcare", HealthcareKeywords, [0, 0, 0, 1, 0, 2], 0);
  }

  lemma HealthcareMissesShopping()
    ensures !AnyHit("healthcare", ShoppingKeywords)
  {
    NoHitByMissingChars("healthcare", ShoppingKeywords, [0, 1, 2, 0, 6, 0], 0);
  }

  lemma HealthcareMissesEducation()
    ensures !AnyHit("healthcare", EducationKeywords)
  {
    NoHitByMissingChars("healthcare", EducationKeywords, [1, 0, 1, 0, 0], 0);
  }

  lemma HealthcareMissesAll()
    ensures NoHit(Clusters, "healthcare")
  {
    HealthcareMissesFood();
    HealthcareMissesTransport();
    HealthcareMissesEntertainment();
    HealthcareMissesUtilities();
    HealthcareMissesHealthcare();
    HealthcareMissesShopping();
    HealthcareMissesEducation();
    NoHitFromClusters("healthcare");
  }

  /** The category name "healthcare" contains no keyword. */
  lemma HealthcareNameIsOther()
    ensures MapToCategory("healthcare") == Other
  {
    LowerOfLower("healthcare");
    HealthcareMissesAll();
    OtherWhenNoHit("healthcare");
  }

  lemma EducationMissesFood()
    ensures !AnyHit("education", FoodKeywords)
  {
    NoHitByMissingChars("education", FoodKeywords, [0, 5, 0, 0, 2, 0, 0, 0, 0], 0);
  }

  lemma EducationMissesTransport()
    ensures !AnyHit("education", TransportKeywords)
  {
    NoHitByMissingChars("education", TransportKeywords, [1, 2, 0, 0, 0, 0, 1, 0, 0], 0);
  }

  lemma EducationMissesEntertainment()
    ensures !AnyHit("education", EntertainmentKeywords)
  {
    NoHitByMissingChars("education", EntertainmentKeywords, [0, 4, 0, 3, 0, 5, 0, 1], 0);
  }

  lemma EducationMissesUtilities()
    ensures !AnyHit("education", UtilitiesKeywords)
  {
    NoHitByMissingChars("education", UtilitiesKeywords, [0, 1, 0, 0, 4, 0, 0], 0);
  }

  lemma EducationMissesHealthcare()
    ensures !AnyHit("education", HealthcareKeywords)
  {
    NoHitByMissingChars("education", HealthcareKeywords, [5, 0, 0, 0, 5, 1], 0);
  }

  lemma EducationMissesShopping()
    ensures !AnyHit("education", ShoppingKeywords)
  {
    NoHitByMissingChars("education", ShoppingKeywords, [0, 1, 1, 0, 1, 0], 0);
  }

  lemma EducationLacksTuition()
    ensures !Contains("education", "tuition")
  {
    var t, k := "education", "tuition";
    forall p: nat | p <= |t|
      ensures !SliceAt(t, k, p)
    {
      if p == 0 { MismatchAt(t, k, 0, 0); }
      else if p == 1 { MismatchAt(t, k, 1, 0); }
      else if p == 2 { MismatchAt(t, k, 2, 0); }
    }
  }

  lemma EducationMissesEducation()
    ensures !AnyHit("education", EducationKeywords)
  {
    EducationLacksTuition();
    NoHitByMissingChars("education", EducationKeywords, [3, 0, 0, 0, 0], 0);
  }

  lemma EducationMissesAll()
    ensures NoHit(Clusters, "education")
  {
    EducationMissesFood();
    EducationMissesTransport();
    EducationMissesEntertainment();
    EducationMissesUtilities();
    EducationMissesHealthcare();
    EducationMissesShopping();
    EducationMissesEducation();
    NoHitFromClusters("education");
  }

  /** The category name "education" contains no keyword. */
  lemma EducationNameIsOther()
    ensures MapToCategory("education") == Other
  {
    LowerOfLower("education");
    EducationMissesAll();
    OtherWhenNoHit("education");
  }
}

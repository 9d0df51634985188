/** The companion directory: a constant catalog and the `GET` handler that returns it. */
module CompanionsRoute {
  import opened Types
  import opened JsText

  /** The six personas, in declaration order. Nothing writes to it. */
  const Catalog: seq<Companion> := [
    Companion(
      "1", "Alex",
      "https://images.unsplash.com/photo-1507003211169-0a1dd7228f2d?w=400&h=400&fit=crop&crop=face",
      "A friendly and knowledgeable tutor specializing in mathematics and science.",
      "voice_alex_001", "Encouraging and patient",
      ["Mathematics", "Physics", "Chemistry"]),
    Companion(
      "2", "Sofia",
      "https://images.unsplash.com/photo-1494790108755-2616b612b786?w=400&h=400&fit=crop&crop=face",
      "An enthusiastic language teacher with expertise in multiple languages.",
      "voice_sofia_002", "Energetic and creative",
      ["English", "Spanish", "French", "Literature"]),
    Companion(
      "3", "Marcus",
      "https://images.unsplash.com/photo-1472099645785-5658abf4ff4e?w=400&h=400&fit=crop&crop=face",
      "A history and social studies expert with a passion for storytelling.",
      "voice_marcus_003", "Wise and engaging",
      ["History", "Social Studies", "Geography", "Political Science"]),
    Companion(
      "4", "Luna",
      "https://images.unsplash.com/photo-1438761681033-6461ffad8d80?w=400&h=400&fit=crop&crop=face",
      "A tech-savvy coding instructor with expertise in modern programming languages.",
      "voice_luna_004", "Analytical and innovative",
      ["Programming", "Computer Science", "Web Development", "Data Science"]),
    Companion(
      "5", "Dr. Chen",
      "https://images.unsplash.com/photo-1612349317150-e413f6a5b16d?w=400&h=400&fit=crop&crop=face",
      "A medical professional and biology expert with extensive teaching experience.",
      "voice_chen_005", "Precise and caring",
      ["Biology", "Medicine", "Anatomy", "Health Sciences"]),
    Companion(
      "6", "Emma",
      "https://images.unsplash.com/photo-1544005313-94ddf0286df2?w=400&h=400&fit=crop&crop=face",
      "An art and design instructor with a creative approach to learning.",
      "voice_emma_006", "Creative and inspiring",
      ["Art", "Design", "Photography", "Creative Writing"])
  ]

  /** Ids and names are pairwise distinct; every entry has three or four specialties. */
  predicate WellFormed(cs: seq<Companion>)
  {
    DistinctIds(cs) && DistinctNames(cs) && SpecialtyCounts(cs)
  }

  predicate DistinctIds(cs: seq<Companion>)
  {
    forall i, j :: 0 <= i < j < |cs| ==> cs[i].id != cs[j].id
  }

  predicate DistinctNames(cs: seq<Companion>)
  {
    forall i, j :: 0 <= i < j < |cs| ==> cs[i].name != cs[j].name
  }

  predicate SpecialtyCounts(cs: seq<Companion>)
  {
    forall i :: 0 <= i < |cs| ==> 3 <= |cs[i].specialties| <= 4
  }

  /**
   * `GET`: the whole catalog, unfiltered and in declaration order. Being a function of
   * nothing, every call returns the same sequence.
   */
  function Get(): (r: seq<Companion>)
    ensures |r| == 6
    ensures forall i :: 0 <= i < |r| ==> r[i].id == NatToString(i + 1)
    ensures WellFormed(r)
  {
    CatalogWellFormed();
    Catalog
  }

  lemma CatalogWellFormed()
    ensures |Catalog| == 6
    ensures forall i :: 0 <= i < |Catalog| ==> Catalog[i].id == NatToString(i + 1)
    ensures WellFormed(Catalog)
  {
    CatalogIdsInOrder();
    CatalogNamesDistinct();
    CatalogSpecialtyCounts();
  }

  lemma CatalogIdsInOrder()
    ensures |Catalog| == 6
    ensures forall i :: 0 <= i < |Catalog| ==> Catalog[i].id == NatToString(i + 1)
    ensures DistinctIds(Catalog)
  {
    forall i | 0 <= i < |Catalog|
      ensures Catalog[i].id == NatToString(i + 1)
    {
      assert NatToString(i + 1) == [DigitChar(i + 1)];
    }
  }

  lemma CatalogNamesDistinct()
    ensures DistinctNames(Catalog)
  {
    forall i, j | 0 <= i < j < |Catalog|
      ensures Catalog[i].name != Catalog[j].name
    {
      assert Catalog[i].name[0] == "ASMLDE"[i];
      assert Catalog[j].name[0] == "ASMLDE"[j];
    }
  }

  lemma CatalogSpecialtyCounts()
    ensures SpecialtyCounts(Catalog)
  {
  }

  /** Every catalog entry has a first specialty, which the reply templates index. */
  lemma CatalogSpecialtiesNonEmpty(c: Companion)
    requires c in Get()
    ensures |c.specialties| >= 1
  {
    var i :| 0 <= i < |Get()| && Get()[i] == c;
  }

  /** No catalog specialty is the word a missing array element renders as. */
  lemma CatalogSpecialtiesReal(c: Companion)
    requires c in Get()
    ensures forall k :: 0 <= k < |c.specialties| ==> c.specialties[k] != "undefined"
  {
    var i :| 0 <= i < |Get()| && Get()[i] == c;
    CatalogSpecialtiesCapitalised(i);
  }

  /** Every specialty of the catalog entry at position `i` starts with a capital letter. */
  lemma CatalogSpecialtiesCapitalised(i: int)
    requires 0 <= i < |Catalog|
    ensures forall k :: 0 <= k < |Catalog[i].specialties| ==>
      Catalog[i].specialties[k] != [] && 'A' <= Catalog[i].specialties[k][0] <= 'Z'
  {
  }
}

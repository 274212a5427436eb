/** The two constant tables of tools/update-lib-configs.js: the tiers whose rules
    are errors, and the graph saying which tier each tier extends. */
module Categories {
  import opened Wrappers

  /** `errorCategories` (line 17): tiers whose rules get severity 'error'. */
  const ErrorCategories: set<string> := {"base", "essential", "vue3-essential"}

  /** `extendsCategories` (lines 19-29): every known tier and the tier it
      extends, `None` standing for `null`. */
  const ExtendsCategories: map<string, Option<string>> := map[
    "base" := None,
    "essential" := Some("base"),
    "vue3-essential" := Some("base"),
    "strongly-recommended" := Some("essential"),
    "vue3-strongly-recommended" := Some("vue3-essential"),
    "recommended" := Some("strongly-recommended"),
    "vue3-recommended" := Some("vue3-strongly-recommended"),
    "use-with-caution" := Some("recommended"),
    "vue3-use-with-caution" := Some("vue3-recommended")
  ]

  /** The number of tiers in the graph. */
  const TierCount := 9

  /** `extendsCategories[categoryId]` as read by `== null` (line 52): an id
      that is not a key reads as undefined, which counts as null. */
  function ParentOf(categoryId: string): Option<string> {
    if categoryId in ExtendsCategories then ExtendsCategories[categoryId] else None
  }

  /** `categoryId.startsWith('vue3')`: the tier belongs to the Vue 3 family. */
  predicate IsVue3(categoryId: string) {
    "vue3" <= categoryId
  }

  /** The tiers met by following parents from `categoryId`, starting with
      `categoryId` itself, for at most `fuel` tiers. */
  function Chain(categoryId: string, fuel: nat): seq<string>
    decreases fuel
  {
    if fuel == 0 then []
    else match ParentOf(categoryId)
      case None => [categoryId]
      case Some(p) => [categoryId] + Chain(p, fuel - 1)
  }
}

/** Properties of the constant tables. */
module CategoryGraph {
  import opened Wrappers
  import opened Categories

  /** A word is not a prefix of a string it differs from at position `i`. */
  lemma NotPrefixAt(w: string, s: string, i: nat)
    requires i < |w| && i < |s| && w[i] != s[i]
    ensures !(w <= s)
  {
  }

  /** Exactly the three listed tiers are error tiers. */
  lemma ErrorTiers(categoryId: string)
    ensures categoryId in ErrorCategories <==>
      categoryId == "base" || categoryId == "essential" || categoryId == "vue3-essential"
  {
  }

  /** Which known tiers belong to the Vue 3 family. */
  lemma FamilyOfTiers()
    ensures IsVue3("vue3-essential") && IsVue3("vue3-strongly-recommended")
    ensures IsVue3("vue3-recommended") && IsVue3("vue3-use-with-caution")
    ensures !IsVue3("base") && !IsVue3("essential") && !IsVue3("strongly-recommended")
    ensures !IsVue3("recommended") && !IsVue3("use-with-caution")
  {
    NotPrefixAt("vue3", "base", 0);
    NotPrefixAt("vue3", "essential", 0);
    NotPrefixAt("vue3", "strongly-recommended", 0);
    NotPrefixAt("vue3", "recommended", 0);
    NotPrefixAt("vue3", "use-with-caution", 0);
  }

  /** Every non-null parent is itself a tier of the graph. */
  lemma ParentsAreTiers(categoryId: string)
    requires ParentOf(categoryId).Some?
    ensures categoryId in ExtendsCategories
    ensures ParentOf(categoryId).value in ExtendsCategories
  {
  }

  /** `base` is the only root of the graph, and an id outside the graph reads
      as a root too. */
  lemma RootsOfGraph(categoryId: string)
    ensures ParentOf(categoryId).None? <==> categoryId == "base" || categoryId !in ExtendsCategories
  {
  }

  /** A parent edge never crosses version families: the parent is `base` or a
      tier of the child's own family. */
  lemma ParentStaysInFamily(categoryId: string)
    requires ParentOf(categoryId).Some?
    ensures var p := ParentOf(categoryId).value;
      p == "base" || (IsVue3(p) <==> IsVue3(categoryId))
  {
    FamilyOfTiers();
  }

  /** A chain starts at its tier, follows parent edges and is no longer than
      its fuel. */
  lemma {:induction false} ChainFollowsParents(categoryId: string, fuel: nat)
    requires fuel > 0
    ensures var c := Chain(categoryId, fuel);
      && 1 <= |c| <= fuel
      && c[0] == categoryId
      && (forall i | 0 <= i < |c| - 1 :: ParentOf(c[i]) == Some(c[i + 1]))
    decreases fuel
  {
    match ParentOf(categoryId)
    case None =>
    case Some(p) =>
      if fuel > 1 {
        ChainFollowsParents(p, fuel - 1);
        var c := Chain(categoryId, fuel);
        var tail := Chain(p, fuel - 1);
        assert c == [categoryId] + tail;
        forall i | 0 <= i < |c| - 1
          ensures ParentOf(c[i]) == Some(c[i + 1])
        {
          if i > 0 {
            assert c[i] == tail[i - 1] && c[i + 1] == tail[i];
          }
        }
      }
  }

  /** Following parents from a tier of the graph never leaves its version
      family: every tier met is `base` or of the starting tier's family. */
  lemma {:induction false} ChainStaysInFamily(categoryId: string, fuel: nat)
    requires categoryId in ExtendsCategories
    ensures forall t | t in Chain(categoryId, fuel) :: t == "base" || (IsVue3(t) <==> IsVue3(categoryId))
    decreases fuel
  {
    if fuel > 0 {
      match ParentOf(categoryId)
      case None =>
      case Some(p) =>
        ParentsAreTiers(categoryId);
        ParentStaysInFamily(categoryId);
        ChainStaysInFamily(p, fuel - 1);
        assert Chain(categoryId, fuel) == [categoryId] + Chain(p, fuel - 1);
    }
  }

  /** The graph's keys are exactly the nine tiers. */
  lemma KnownTiers(categoryId: string)
    ensures categoryId in ExtendsCategories <==>
            || categoryId == "base" || categoryId == "essential" || categoryId == "vue3-essential"
            || categoryId == "strongly-recommended" || categoryId == "vue3-strongly-recommended"
            || categoryId == "recommended" || categoryId == "vue3-recommended"
            || categoryId == "use-with-caution" || categoryId == "vue3-use-with-caution"
  {
  }

  /** The parent of every tier of the graph, read off the table. */
  lemma ParentsOfTiers()
    ensures ParentOf("base") == None
    ensures ParentOf("essential") == Some("base")
    ensures ParentOf("vue3-essential") == Some("base")
    ensures ParentOf("strongly-recommended") == Some("essential")
    ensures ParentOf("vue3-strongly-recommended") == Some("vue3-essential")
    ensures ParentOf("recommended") == Some("strongly-recommended")
    ensures ParentOf("vue3-recommended") == Some("vue3-strongly-recommended")
    ensures ParentOf("use-with-caution") == Some("recommended")
    ensures ParentOf("vue3-use-with-caution") == Some("vue3-recommended")
  {
  }

  /** The chains of the Vue 2 family, written out. */
  lemma Vue2Chains()
    ensures Chain("base", TierCount) == ["base"]
    ensures Chain("essential", TierCount) == ["essential", "base"]
    ensures Chain("strongly-recommended", TierCount) == ["strongly-recommended", "essential", "base"]
    ensures Chain("recommended", TierCount) == ["recommended", "strongly-recommended", "essential", "base"]
    ensures Chain("use-with-caution", TierCount)
         == ["use-with-caution", "recommended", "strongly-recommended", "essential", "base"]
  {
    ParentsOfTiers();
  }

  /** The chains of the Vue 3 family, written out. */
  lemma Vue3Chains()
    ensures Chain("vue3-essential", TierCount) == ["vue3-essential", "base"]
    ensures Chain("vue3-strongly-recommended", TierCount)
         == ["vue3-strongly-recommended", "vue3-essential", "base"]
    ensures Chain("vue3-recommended", TierCount)
         == ["vue3-recommended", "vue3-strongly-recommended", "vue3-essential", "base"]
    ensures Chain("vue3-use-with-caution", TierCount)
         == ["vue3-use-with-caution", "vue3-recommended", "vue3-strongly-recommended", "vue3-essential", "base"]
  {
    ParentsOfTiers();
  }

  /** Following parents from a tier of the graph meets only tiers of the
      graph. */
  lemma {:induction false} ChainStaysInGraph(categoryId: string, fuel: nat)
    requires categoryId in ExtendsCategories
    ensures forall t | t in Chain(categoryId, fuel) :: t in ExtendsCategories
    decreases fuel
  {
    if fuel > 0 {
      match ParentOf(categoryId)
      case None =>
      case Some(p) =>
        ParentsAreTiers(categoryId);
        ChainStaysInGraph(p, fuel - 1);
        assert Chain(categoryId, fuel) == [categoryId] + Chain(p, fuel - 1);
    }
  }

  /** Every chain of the graph ends at `base` after at most five tiers. */
  lemma ChainEndsAtBase(categoryId: string)
    requires categoryId in ExtendsCategories
    ensures var c := Chain(categoryId, TierCount);
      1 <= |c| <= 5 && c[|c| - 1] == "base"
  {
    KnownTiers(categoryId);
    if || categoryId == "base" || categoryId == "essential" || categoryId == "strongly-recommended"
       || categoryId == "recommended" || categoryId == "use-with-caution" {
      Vue2Chains();
    } else {
      Vue3Chains();
    }
  }

  /** Following parents from any tier reaches `base`, whose parent is null,
      after at most four edges: a chain holds at most five of the nine tiers. */
  lemma ChainReachesRoot(categoryId: string)
    requires categoryId in ExtendsCategories
    ensures var c := Chain(categoryId, TierCount);
      && 1 <= |c| <= 5 <= TierCount
      && c[0] == categoryId
      && c[|c| - 1] == "base"
      && ParentOf(c[|c| - 1]).None?
      && forall t | t in c :: t in ExtendsCategories
  {
    ChainFollowsParents(categoryId, TierCount);
    ChainEndsAtBase(categoryId);
    ChainStaysInGraph(categoryId, TierCount);
    ParentsOfTiers();
  }
}

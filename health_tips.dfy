/** The health-tips page (HealthTips.js): a fixed catalog of tips grouped by
    category, a selected category, a free-text search term, and the list of
    tips shown, which is re-derived whenever either selector changes. */
module HealthTips {
  import opened Text

  datatype Tip = Tip(id: int, title: string, content: string)

  /** A category button; its icon is presentation and is not modelled. */
  datatype Category = Category(id: string, name: string)

  /** The category buttons, in the order they are rendered. */
  const Categories: seq<Category> := [
    Category("nutrition", "Nutrition"),
    Category("fitness", "Fitness"),
    Category("mentalHealth", "Mental Health"),
    Category("sleep", "Sleep")
  ]

  function CategoryIds(): seq<string>
  {
    seq(|Categories|, i requires 0 <= i < |Categories| => Categories[i].id)
  }

  // Each tip's content is a named constant written as a concatenation of short
  // literals: the verifier can look inside a short literal but not into the
  // middle of a long one.
  const BalancedDietText: string := "Aim for a balanced diet " + "with a variety of " + "fruits, vegetables, " + "whole grains, and lean " + "proteins."
  const PortionControlText: string := "Practice portion " + "control to maintain a " + "healthy weight and " + "improve digestion."
  const HydrationText: string := "Stay hydrated by " + "drinking at least 8 " + "glasses of water daily."
  const RegularExerciseText: string := "Aim for at least 150 " + "minutes of " + "moderate-intensity " + "exercise per week."
  const StrengthTrainingText: string := "Incorporate strength " + "training exercises at " + "least twice a week to " + "build muscle and boost " + "metabolism."
  const ActiveLifestyleText: string := "Find ways to stay " + "active throughout the " + "day, like taking the " + "stairs or going for " + "short walks."
  const MindfulnessText: string := "Practice mindfulness or " + "meditation to reduce " + "stress and improve " + "mental clarity."
  const SocialConnectionsText: string := "Maintain strong social " + "connections to support " + "your mental well-being."
  const StressManagementText: string := "Develop healthy coping " + "mechanisms for stress, " + "such as deep breathing " + "or journaling."
  const SleepScheduleText: string := "Maintain a consistent " + "sleep schedule, even on " + "weekends."
  const BedtimeRoutineText: string := "Create a relaxing " + "bedtime routine to " + "signal your body it's " + "time to sleep."
  const SleepEnvironmentText: string := "Optimize your sleep " + "environment by keeping " + "it cool, dark, and " + "quiet."

  const Nutrition: seq<Tip> := [
    Tip(1, "Balanced Diet", BalancedDietText),
    Tip(2, "Portion Control", PortionControlText),
    Tip(3, "Hydration", HydrationText)
  ]

  const Fitness: seq<Tip> := [
    Tip(4, "Regular Exercise", RegularExerciseText),
    Tip(5, "Strength Training", StrengthTrainingText),
    Tip(6, "Active Lifestyle", ActiveLifestyleText)
  ]

  const MentalHealth: seq<Tip> := [
    Tip(7, "Mindfulness", MindfulnessText),
    Tip(8, "Social Connections", SocialConnectionsText),
    Tip(9, "Stress Management", StressManagementText)
  ]

  const Sleep: seq<Tip> := [
    Tip(10, "Sleep Schedule", SleepScheduleText),
    Tip(11, "Bedtime Routine", BedtimeRoutineText),
    Tip(12, "Sleep Environment", SleepEnvironmentText)
  ]

  /** The catalog: category id to its tips, in display order. */
  const AllTips: map<string, seq<Tip>> := map[
    "nutrition" := Nutrition,
    "fitness" := Fitness,
    "mentalHealth" := MentalHealth,
    "sleep" := Sleep
  ]

  /** Every category button has a catalog entry and every catalog entry a
      button, in the fixed order nutrition, fitness, mentalHealth, sleep. */
  lemma CategoriesMatchCatalog()
    ensures CategoryIds() == ["nutrition", "fitness", "mentalHealth", "sleep"]
    ensures forall id :: id in CategoryIds() <==> id in AllTips
  {
    assert CategoryIds() == ["nutrition", "fitness", "mentalHealth", "sleep"];
  }

  /** Tip ids are render keys: no two positions of the catalog share an id. */
  lemma CatalogIdsUnique()
    ensures forall c1, c2, i, j ::
      (c1 in AllTips && c2 in AllTips && 0 <= i < |AllTips[c1]| && 0 <= j < |AllTips[c2]| &&
       AllTips[c1][i].id == AllTips[c2][j].id) ==> c1 == c2 && i == j
  {
    forall c | c in AllTips
      ensures forall i :: 0 <= i < |AllTips[c]| ==> AllTips[c][i].id == BaseId(c) + i + 1
      ensures |AllTips[c]| == 3
    {
      if c == "nutrition" {
        assert AllTips[c] == Nutrition;
      } else if c == "fitness" {
        assert AllTips[c] == Fitness;
      } else if c == "mentalHealth" {
        assert AllTips[c] == MentalHealth;
      } else {
        assert AllTips[c] == Sleep;
      }
    }
  }

  /** The id of the tip just before a category's first tip. */
  function BaseId(c: string): int
  {
    if c == "nutrition" then 0 else if c == "fitness" then 3 else if c == "mentalHealth" then 6 else 9
  }

  /** The search predicate: the lower-cased term is a substring of the
      lower-cased title or of the lower-cased content. The empty term keeps
      every tip, and a term longer than both title and content keeps none. */
  predicate Matches(tip: Tip, term: string): (kept: bool)
    ensures term == [] ==> kept
    ensures kept ==> |term| <= |tip.title| || |term| <= |tip.content|
  {
    Contains(Lower(tip.title), Lower(term)) || Contains(Lower(tip.content), Lower(term))
  }

  /** A tip is kept exactly when the lower-cased term occurs at some position
      of its lower-cased title or of its lower-cased content. */
  lemma MatchesIffOccurs(tip: Tip, term: string)
    ensures Matches(tip, term) <==>
      OccursIn(Lower(tip.title), Lower(term)) || OccursIn(Lower(tip.content), Lower(term))
  {
    ContainsIffOccurs(Lower(tip.title), Lower(term));
    ContainsIffOccurs(Lower(tip.content), Lower(term));
  }

  /** `tips.filter(tip => matches)`: the tips that match, in their original order. */
  function Filter(tips: seq<Tip>, term: string): (kept: seq<Tip>)
    ensures |kept| <= |tips|
    ensures forall t :: t in kept <==> t in tips && Matches(t, term)
  {
    if tips == [] then []
    else if Matches(tips[0], term) then [tips[0]] + Filter(tips[1..], term)
    else Filter(tips[1..], term)
  }

  ghost function Shifted(s: seq<int>): seq<int>
  {
    seq(|s|, i requires 0 <= i < |s| => s[i] + 1)
  }

  lemma ShiftedMembers(s: seq<int>)
    ensures forall j :: j in Shifted(s) <==> j - 1 in s
  {
    forall j | j - 1 in s ensures j in Shifted(s) {
      var m :| 0 <= m < |s| && s[m] == j - 1;
      assert Shifted(s)[m] == j;
    }
  }

  /** The positions of the matching tips, in increasing order. */
  ghost function KeptIndices(tips: seq<Tip>, term: string): seq<int>
  {
    if tips == [] then []
    else (if Matches(tips[0], term) then [0] else []) + Shifted(KeptIndices(tips[1..], term))
  }

  /** Positions inside a list of length `len`, in strictly increasing order. */
  ghost predicate IncreasingBelow(idx: seq<int>, len: int)
  {
    (forall m :: 0 <= m < |idx| ==> 0 <= idx[m] < len)
    && (forall m, n :: 0 <= m < n < |idx| ==> idx[m] < idx[n])
  }

  /** Shifting increasing positions up by one and putting position 0 (or
      nothing) in front keeps them increasing, in a list one longer. */
  lemma ConsShiftedIncreasing(head: seq<int>, idx: seq<int>, len: int)
    requires head == [] || head == [0]
    requires 1 <= len && IncreasingBelow(idx, len - 1)
    ensures IncreasingBelow(head + Shifted(idx), len)
  {
    var all := head + Shifted(idx);
    forall m | 0 <= m < |all|
      ensures 0 <= all[m] < len
    {
      if m >= |head| {
        assert all[m] == Shifted(idx)[m - |head|] == idx[m - |head|] + 1;
      } else {
        assert all[m] == 0;
      }
    }
    forall m, n | 0 <= m < n < |all|
      ensures all[m] < all[n]
    {
      assert all[n] == Shifted(idx)[n - |head|] == idx[n - |head|] + 1;
      if m >= |head| {
        assert all[m] == Shifted(idx)[m - |head|] == idx[m - |head|] + 1;
      }
    }
  }

  /** The kept positions lie inside the list and increase strictly. */
  lemma {:induction false} KeptIndicesSorted(tips: seq<Tip>, term: string)
    ensures IncreasingBelow(KeptIndices(tips, term), |tips|)
  {
    if tips != [] {
      KeptIndicesSorted(tips[1..], term);
      var head: seq<int> := if Matches(tips[0], term) then [0] else [];
      assert KeptIndices(tips, term) == head + Shifted(KeptIndices(tips[1..], term));
      ConsShiftedIncreasing(head, KeptIndices(tips[1..], term), |tips|);
    }
  }

  /** The kept positions lie inside the list, increase strictly, and are
      exactly the positions whose tip matches. */
  lemma {:induction false} KeptIndicesExact(tips: seq<Tip>, term: string)
    ensures IncreasingBelow(KeptIndices(tips, term), |tips|)
    ensures forall j :: 0 <= j < |tips| ==> (j in KeptIndices(tips, term) <==> Matches(tips[j], term))
  {
    KeptIndicesSorted(tips, term);
    if tips != [] {
      var rest := tips[1..];
      var idx' := KeptIndices(rest, term);
      KeptIndicesExact(rest, term);
      ShiftedMembers(idx');
      var head: seq<int> := if Matches(tips[0], term) then [0] else [];
      var idx := KeptIndices(tips, term);
      assert idx == head + Shifted(idx');
      forall j | 0 <= j < |tips|
        ensures j in idx <==> Matches(tips[j], term)
      {
        if j == 0 {
          assert 0 !in Shifted(idx');
        } else {
          assert rest[j - 1] == tips[j];
        }
      }
    }
  }

  /** `kept` is `tips` read at the positions `idx`. */
  ghost predicate ReadsAt(kept: seq<Tip>, tips: seq<Tip>, idx: seq<int>)
  {
    |idx| == |kept|
    && forall m :: 0 <= m < |idx| ==> 0 <= idx[m] < |tips| && kept[m] == tips[idx[m]]
  }

  /** Reading the tail at some positions, and optionally the head at 0, is
      reading the whole list at those positions shifted up by one. */
  lemma ConsReadsShifted(tips: seq<Tip>, headTips: seq<Tip>, head: seq<int>, kept: seq<Tip>, idx: seq<int>)
    requires tips != []
    requires (head == [] && headTips == []) || (head == [0] && headTips == [tips[0]])
    requires ReadsAt(kept, tips[1..], idx)
    ensures ReadsAt(headTips + kept, tips, head + Shifted(idx))
  {
    var all, allTips := head + Shifted(idx), headTips + kept;
    forall m | 0 <= m < |all|
      ensures 0 <= all[m] < |tips| && allTips[m] == tips[all[m]]
    {
      if m >= |head| {
        assert all[m] == Shifted(idx)[m - |head|] == idx[m - |head|] + 1;
        assert allTips[m] == kept[m - |head|] == tips[1..][idx[m - |head|]];
      }
    }
  }

  /** The filtered list is the list read at the kept positions. */
  lemma {:induction false} FilterReadsKeptIndices(tips: seq<Tip>, term: string)
    ensures ReadsAt(Filter(tips, term), tips, KeptIndices(tips, term))
  {
    if tips != [] {
      var rest := tips[1..];
      FilterReadsKeptIndices(rest, term);
      var head: seq<int> := if Matches(tips[0], term) then [0] else [];
      var headTips := if Matches(tips[0], term) then [tips[0]] else [];
      assert KeptIndices(tips, term) == head + Shifted(KeptIndices(rest, term));
      assert Filter(tips, term) == headTips + Filter(rest, term);
      ConsReadsShifted(tips, headTips, head, Filter(rest, term), KeptIndices(rest, term));
    }
  }


  /** `kept` is `tips` restricted to the positions `idx`, which increase, and
      which are exactly the positions whose tip matches `term`. */
  ghost predicate SelectsMatching(kept: seq<Tip>, tips: seq<Tip>, idx: seq<int>, term: string)
  {
    ReadsAt(kept, tips, idx)
    && IncreasingBelow(idx, |tips|)
    && (forall j :: 0 <= j < |tips| ==> (j in idx <==> Matches(tips[j], term)))
  }

  /** The filter is stable: it keeps exactly the matching positions, in
      catalog order, and nothing else. */
  lemma FilterKeepsOrder(tips: seq<Tip>, term: string)
    ensures SelectsMatching(Filter(tips, term), tips, KeptIndices(tips, term), term)
  {
    KeptIndicesExact(tips, term);
    FilterReadsKeptIndices(tips, term);
  }

  /** An empty search term keeps the whole list, unchanged. */
  lemma {:induction false} FilterEmptyTerm(tips: seq<Tip>)
    ensures Filter(tips, "") == tips
  {
    if tips != [] {
      assert Lower("") == "";
      assert Matches(tips[0], "");
      FilterEmptyTerm(tips[1..]);
    }
  }

  /** Filtering the filtered list again with the same term changes nothing. */
  lemma {:induction false} FilterIdempotent(tips: seq<Tip>, term: string)
    ensures Filter(Filter(tips, term), term) == Filter(tips, term)
  {
    if tips != [] {
      FilterIdempotent(tips[1..], term);
      if Matches(tips[0], term) {
        var kept := Filter(tips, term);
        assert kept[0] == tips[0] && kept[1..] == Filter(tips[1..], term);
      }
    }
  }

  /** The search is case-insensitive: a term and its lower-cased form select
      the same tips. */
  lemma {:induction false} FilterIgnoresCase(tips: seq<Tip>, term: string)
    ensures Filter(tips, term) == Filter(tips, Lower(term))
  {
    LowerIdempotent(term);
    if tips != [] {
      FilterIgnoresCase(tips[1..], term);
    }
  }

  /** Tip ids stay unique among the shown tips of any category and term. */
  lemma ShownIdsUnique(c: string, term: string)
    requires c in AllTips
    ensures var shown := Filter(AllTips[c], term);
      forall m, n :: 0 <= m < n < |shown| ==> shown[m].id != shown[n].id
  {
    var idx := KeptIndices(AllTips[c], term);
    FilterKeepsOrder(AllTips[c], term);
    CatalogIdsUnique();
    var shown := Filter(AllTips[c], term);
    forall m, n | 0 <= m < n < |shown|
      ensures shown[m].id != shown[n].id
    {
      assert idx[m] < idx[n];
    }
  }

  /** Tip 11's content ends "time to sleep.", so it matches "sleep". */
  lemma BedtimeRoutineMentionsSleep()
    ensures Matches(Sleep[1], "sleep")
  {
    var head := "Create a relaxing " + "bedtime routine to " + "signal your body it's ";
    assert BedtimeRoutineText == head + "time to sleep.";
    assert Lower("sleep") == "sleep";
    assert Lower("time to sleep.") == "time to sleep.";
    ContainsAt("time to sleep.", "sleep", 8);
    LowerConcat(head, "time to sleep.");
    ContainsInSuffix(Lower(head), "time to sleep.", "sleep");
  }

  /** Tips 10 and 12 have "Sleep" at the start of their titles. */
  lemma SleepTitlesMentionSleep()
    ensures Matches(Sleep[0], "sleep") && Matches(Sleep[2], "sleep")
  {
    assert Lower("sleep") == "sleep";
    ContainsAt(Lower("Sleep Schedule"), "sleep", 0);
    ContainsAt(Lower("Sleep Environment"), "sleep", 0);
  }

  /** Searching "sleep" in the sleep category keeps all three tips, ids 10,
      11 and 12: tip 11 matches through the last words of its content. */
  lemma SleepSearchKeepsAll()
    ensures Filter(AllTips["sleep"], "sleep") == Sleep
    ensures seq(|Sleep|, i requires 0 <= i < |Sleep| => Sleep[i].id) == [10, 11, 12]
  {
    BedtimeRoutineMentionsSleep();
    SleepTitlesMentionSleep();
    FilterThree(Sleep, "sleep");
  }

  // The lemmas below show that a pair of letters never occurs in a catalog
  // text, a few short literals and their junctions at a time, so that each
  // proof obligation stays small.

  lemma BalancedDietHeadLacksYd()
    ensures NoPair("Aim for a balanced diet " + "with a variety of ", 'y', 'd')
  {
    NoPairConcat("Aim for a balanced diet ", "with a variety of ", 'y', 'd');
  }

  lemma BalancedDietTailLacksYd()
    ensures NoPair("fruits, vegetables, " + "whole grains, and lean " + "proteins.", 'y', 'd')
  {
    NoPairConcat("fruits, vegetables, ", "whole grains, and lean ", 'y', 'd');
    NoPairConcat("fruits, vegetables, " + "whole grains, and lean ", "proteins.", 'y', 'd');
  }

  /** Tip 1's content has no "y" followed by "d", in either case. */
  lemma BalancedDietLacksYd()
    ensures NoPair(BalancedDietText, 'y', 'd')
  {
    BalancedDietHeadLacksYd();
    BalancedDietTailLacksYd();
    var head := "Aim for a balanced diet " + "with a variety of ";
    var tail := "fruits, vegetables, " + "whole grains, and lean " + "proteins.";
    NoPairConcat(head, tail, 'y', 'd');
    assert BalancedDietText == head + tail;
  }

  lemma PortionControlHeadLacksYd()
    ensures NoPair("Practice portion " + "control to maintain a ", 'y', 'd')
  {
    NoPairConcat("Practice portion ", "control to maintain a ", 'y', 'd');
  }

  lemma PortionControlTailLacksYd()
    ensures NoPair("healthy weight and " + "improve digestion.", 'y', 'd')
  {
    NoPairConcat("healthy weight and ", "improve digestion.", 'y', 'd');
  }

  /** Tip 2's content has no "y" followed by "d", in either case. */
  lemma PortionControlLacksYd()
    ensures NoPair(PortionControlText, 'y', 'd')
  {
    PortionControlHeadLacksYd();
    PortionControlTailLacksYd();
    var head := "Practice portion " + "control to maintain a ";
    var tail := "healthy weight and " + "improve digestion.";
    NoPairConcat(head, tail, 'y', 'd');
    assert PortionControlText == head + tail;
  }

  lemma HydrationHeadLacksTi()
    ensures NoPair("Stay hydrated by " + "drinking at least 8 ", 't', 'i')
  {
    NoPairConcat("Stay hydrated by ", "drinking at least 8 ", 't', 'i');
  }

  /** Tip 3's content has no "t" followed by "i", in either case. */
  lemma HydrationLacksTi()
    ensures NoPair(HydrationText, 't', 'i')
  {
    HydrationHeadLacksTi();
    var head := "Stay hydrated by " + "drinking at least 8 ";
    NoPairConcat(head, "glasses of water daily.", 't', 'i');
    assert HydrationText == head + "glasses of water daily.";
  }

  /** Tip 1 contains neither "hydration" nor "hydration ". */
  lemma BalancedDietMissesHydration()
    ensures !Matches(Nutrition[0], "hydration") && !Matches(Nutrition[0], "hydration ")
  {
    BalancedDietLacksYd();
    assert Lower("hydration") == "hydration" && Lower("hydration ") == "hydration ";
    AbsentPairExcludes("Balanced Diet", "hydration", 1);
    AbsentPairExcludes("Balanced Diet", "hydration ", 1);
    AbsentPairExcludes(BalancedDietText, "hydration", 1);
    AbsentPairExcludes(BalancedDietText, "hydration ", 1);
  }

  /** Tip 2 contains neither "hydration" nor "hydration ". */
  lemma PortionControlMissesHydration()
    ensures !Matches(Nutrition[1], "hydration") && !Matches(Nutrition[1], "hydration ")
  {
    PortionControlLacksYd();
    assert Lower("hydration") == "hydration" && Lower("hydration ") == "hydration ";
    AbsentPairExcludes("Portion Control", "hydration", 1);
    AbsentPairExcludes("Portion Control", "hydration ", 1);
    AbsentPairExcludes(PortionControlText, "hydration", 1);
    AbsentPairExcludes(PortionControlText, "hydration ", 1);
  }

  /** Tip 3's title is "Hydration", but nothing in tip 3 contains "hydration "
      with a trailing space. */
  lemma HydrationTipMatchesOnlyUntrimmed()
    ensures Matches(Nutrition[2], "hydration") && !Matches(Nutrition[2], "hydration ")
  {
    HydrationLacksTi();
    assert Lower("hydration") == "hydration" && Lower("hydration ") == "hydration ";
    assert Lower("Hydration") == "hydration";
    ContainsAt(Lower("Hydration"), "hydration", 0);
    AbsentPairExcludes(HydrationText, "hydration ", 5);
  }

  /** Filtering a category of three tips, spelled out. */
  lemma FilterThree(tips: seq<Tip>, term: string)
    requires |tips| == 3
    ensures Filter(tips, term) ==
      (if Matches(tips[0], term) then [tips[0]] else []) +
      (if Matches(tips[1], term) then [tips[1]] else []) +
      (if Matches(tips[2], term) then [tips[2]] else [])
  {
    assert tips[2..][1..] == [] && tips[1..][1..] == tips[2..];
    assert Filter(tips[2..], term) == (if Matches(tips[2], term) then [tips[2]] else []) + Filter([], term);
    assert Filter(tips[1..], term) == (if Matches(tips[1], term) then [tips[1]] else []) + Filter(tips[2..], term);
    assert Filter(tips, term) == (if Matches(tips[0], term) then [tips[0]] else []) + Filter(tips[1..], term);
  }

  /** Searching "HYDRATION" in the nutrition category finds only tip 3. */
  lemma HydrationSearch()
    ensures Filter(AllTips["nutrition"], "HYDRATION") == [Nutrition[2]]
  {
    assert Lower("HYDRATION") == "hydration";
    BalancedDietMissesHydration();
    PortionControlMissesHydration();
    HydrationTipMatchesOnlyUntrimmed();
    FilterIgnoresCase(Nutrition, "HYDRATION");
    FilterThree(Nutrition, "hydration");
  }

  /** The term is not trimmed: a trailing space is searched for literally, so
      "Hydration " finds nothing in the nutrition category. */
  lemma TrailingSpaceIsLiteral()
    ensures Filter(AllTips["nutrition"], "Hydration ") == []
  {
    assert Lower("Hydration ") == "hydration ";
    BalancedDietMissesHydration();
    PortionControlMissesHydration();
    HydrationTipMatchesOnlyUntrimmed();
    FilterIgnoresCase(Nutrition, "Hydration ");
    FilterThree(Nutrition, "hydration ");
  }

  /** The page's state: the two selectors and the list derived from them. */
  class TipsPage {
    var selectedCategory: string
    var searchTerm: string
    var filteredTips: seq<Tip>

    /** The category is a catalog key and the shown list is the filter of
        that category by the current term. */
    ghost predicate Valid()
      reads this
    {
      selectedCategory in CategoryIds()
      && selectedCategory in AllTips
      && filteredTips == Filter(AllTips[selectedCategory], searchTerm)
    }

    /** The page opens on nutrition with an empty search, showing every
        nutrition tip. */
    constructor ()
      ensures Valid()
      ensures selectedCategory == "nutrition" && searchTerm == ""
      ensures filteredTips == Nutrition
    {
      selectedCategory := "nutrition";
      searchTerm := "";
      new;
      CategoriesMatchCatalog();
      FilterEmptyTerm(Nutrition);
      RunFilterEffect();
    }

    /** The effect that recomputes the shown list from both selectors. */
    method RunFilterEffect()
      requires selectedCategory in AllTips
      modifies this`filteredTips
      ensures filteredTips == Filter(AllTips[selectedCategory], searchTerm)
    {
      filteredTips := Filter(AllTips[selectedCategory], searchTerm);
    }

    /** Typing in the search box: the term is stored verbatim, the category
        is kept, and the shown list is recomputed. */
    method SetSearchTerm(value: string)
      requires Valid()
      modifies this
      ensures Valid()
      ensures searchTerm == value && selectedCategory == old(selectedCategory)
      ensures filteredTips == Filter(AllTips[selectedCategory], value)
    {
      searchTerm := value;
      RunFilterEffect();
    }

    /** Clicking a category button: the category changes, the term is kept,
        and the shown list is recomputed against the new category. */
    method SetSelectedCategory(id: string)
      requires Valid()
      requires id in CategoryIds()
      modifies this
      ensures Valid()
      ensures selectedCategory == id && searchTerm == old(searchTerm)
      ensures filteredTips == Filter(AllTips[id], old(searchTerm))
    {
      CategoriesMatchCatalog();
      selectedCategory := id;
      RunFilterEffect();
    }

    /** The "No tips found" message is shown exactly when no tip of the
        selected category matches the term. */
    function NoTipsMessageShown(): (shown: bool)
      reads this
      requires Valid()
      ensures shown <==> forall t :: t in AllTips[selectedCategory] ==> !Matches(t, searchTerm)
    {
      assert filteredTips != [] ==> filteredTips[0] in filteredTips;
      |filteredTips| == 0
    }
  }
}

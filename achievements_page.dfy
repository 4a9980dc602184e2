/**
 * The achievements page: category icons and colours, the sidebar totals over the
 * joined achievement list (absent while the query is loading), and the user's initials.
 */
module AchievementsPage {
  import opened Wrappers
  import opened Seqs
  import opened Text
  import opened Icons
  import opened Schema
  import opened Routes

  /** `getCategoryIcon`: unknown categories get the trophy. */
  function GetCategoryIcon(category: string): (r: Icon)
    ensures r != Medal
    ensures r == Target <==> category == "skill"
    ensures r == Users <==> category == "collaboration"
    ensures r == Star <==> category == "milestone"
    ensures r == Zap <==> category == "streak"
    ensures r == Trophy <==> category !in {"skill", "collaboration", "milestone", "streak"}
  {
    match category
    case "skill" => Target
    case "collaboration" => Users
    case "milestone" => Star
    case "streak" => Zap
    case _ => Trophy
  }

  /** `getIconColor` on this page: unknown categories are grey. */
  function GetIconColor(category: string): (r: string)
    ensures r == "bg-warning text-white" <==> category == "skill"
    ensures r == "bg-success text-white" <==> category == "collaboration"
    ensures r == "bg-secondary text-white" <==> category == "milestone"
    ensures r == "bg-primary text-white" <==> category == "streak"
    ensures r == "bg-gray-500 text-white" <==> category !in {"skill", "collaboration", "milestone", "streak"}
  {
    match category
    case "skill" => "bg-warning text-white"
    case "collaboration" => "bg-success text-white"
    case "milestone" => "bg-secondary text-white"
    case "streak" => "bg-primary text-white"
    case _ => "bg-gray-500 text-white"
  }

  // "XP from Achievements": `data?.reduce((total, a) => total + (a.achievement?.xpReward || 0), 0) || 0`.

  /** What one entry adds: its achievement's reward, or nothing when the join found none. */
  function EntryXp(entry: AchievementDetails): int {
    if entry.achievement.Some? then entry.achievement.value.xpReward else 0
  }

  /** The reduce, a left fold from `acc`. */
  function FoldXp(acc: int, entries: seq<AchievementDetails>): (r: int)
    ensures (forall i :: 0 <= i < |entries| ==> EntryXp(entries[i]) >= 0) ==> r >= acc
    decreases |entries|
  {
    if entries == [] then acc else FoldXp(acc + EntryXp(entries[0]), entries[1..])
  }

  /** The reference sum, right-recursive. */
  function SumXp(entries: seq<AchievementDetails>): int {
    if entries == [] then 0 else EntryXp(entries[0]) + SumXp(entries[1..])
  }

  lemma {:induction false} FoldXpIsSum(acc: int, entries: seq<AchievementDetails>)
    ensures FoldXp(acc, entries) == acc + SumXp(entries)
    decreases |entries|
  {
    if entries != [] {
      FoldXpIsSum(acc + EntryXp(entries[0]), entries[1..]);
    }
  }

  /** The sum over two runs of entries is the sum of the two sums. */
  lemma {:induction false} SumXpAppend(a: seq<AchievementDetails>, b: seq<AchievementDetails>)
    ensures SumXp(a + b) == SumXp(a) + SumXp(b)
  {
    if a == [] {
      assert a + b == b;
    } else {
      assert (a + b)[1..] == a[1..] + b;
      SumXpAppend(a[1..], b);
    }
  }

  function HasAchievement(entry: AchievementDetails): bool { entry.achievement.Some? }

  /** Entries the join left without an achievement add nothing. */
  lemma {:induction false} SumXpOfJoined(entries: seq<AchievementDetails>)
    ensures SumXp(entries) == SumXp(Filter(entries, HasAchievement))
  {
    if entries != [] {
      SumXpOfJoined(entries[1..]);
    }
  }

  function AchievementXp(data: Option<seq<AchievementDetails>>): (r: int)
    ensures data.None? ==> r == 0
    ensures data.Some? ==> r == SumXp(data.value)
    ensures data.Some? ==> r == SumXp(Filter(data.value, HasAchievement))
  {
    match data
    case None => 0
    case Some(entries) =>
      FoldXpIsSum(0, entries);
      SumXpOfJoined(entries);
      FoldXp(0, entries)
  }

  /** Rewards are never negative in the catalog, so neither is the total. */
  lemma {:induction false} SumXpNonNegative(entries: seq<AchievementDetails>)
    requires forall i :: 0 <= i < |entries| ==> EntryXp(entries[i]) >= 0
    ensures SumXp(entries) >= 0
  {
    if entries != [] {
      SumXpNonNegative(entries[1..]);
    }
  }

  // Unlocked per category: `data?.filter(a => a.achievement?.category === category).length || 0`.

  function InCategory(category: string): AchievementDetails -> bool {
    (e: AchievementDetails) => e.achievement.Some? && e.achievement.value.category == category
  }

  /** The tile's number: how many joined entries have an achievement of that category. */
  function CategoryCount(data: Option<seq<AchievementDetails>>, category: string): (n: nat)
    ensures data.None? ==> n == 0
    ensures data.Some? ==> n <= |data.value|
    ensures data.Some? ==> n == |IndicesWhere(data.value, InCategory(category))|
  {
    match data
    case None => 0
    case Some(entries) =>
      CountIsIndices(entries, InCategory(category));
      Count(entries, InCategory(category))
  }

  /** The four category tiles never count more entries than there are. */
  lemma {:induction false} CategoryCountsBound(entries: seq<AchievementDetails>)
    ensures var d := Some(entries);
      CategoryCount(d, "skill") + CategoryCount(d, "collaboration") +
      CategoryCount(d, "milestone") + CategoryCount(d, "streak") <= |entries|
  {
    if entries != [] {
      CategoryCountsBound(entries[1..]);
    }
  }

  /**
   * `name?.split(' ').map(n => n[0]).join('').toUpperCase() || "JS"`: the upper-cased
   * word starts of the name, or "JS" when there is no name or no word start.
   */
  function Initials(name: Option<string>): (r: string)
    ensures |r| >= 1
    ensures name.None? ==> r == "JS"
    ensures name.Some? && WordStarts(name.value, true) == "" ==> r == "JS"
    ensures name.Some? && WordStarts(name.value, true) != "" ==> r == Upper(WordStarts(name.value, true))
  {
    match name
    case None => "JS"
    case Some(n) =>
      var joined := Upper(Heads(Split(n)));
      HeadsOfSplit(n);
      UpperIdempotent(Heads(Split(n)));
      if joined == "" then "JS" else joined
  }
}

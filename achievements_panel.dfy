/**
 * The dashboard's recent-achievements panel: one row per joined achievement, with
 * its icon, a category colour, and how long ago it was unlocked.
 */
module AchievementsPanel {
  import opened Seqs
  import opened Icons
  import opened TimeAgo
  import opened Schema
  import opened Routes
  import AchievementsPage

  /** `getIconColor` in the panel: unknown categories, `"streak"` among them, get the primary colour. */
  function GetIconColor(category: string): (r: string)
    ensures r == "bg-warning" <==> category == "skill"
    ensures r == "bg-success" <==> category == "collaboration"
    ensures r == "bg-secondary" <==> category == "milestone"
    ensures r == "bg-primary" <==> category !in {"skill", "collaboration", "milestone"}
  {
    match category
    case "skill" => "bg-warning"
    case "collaboration" => "bg-success"
    case "milestone" => "bg-secondary"
    case _ => "bg-primary"
  }

  /**
   * The panel's colour is the page's without the text colour for the four known
   * categories, and differs from it for every other category.
   */
  lemma PanelColorsMatchPage(category: string)
    ensures AchievementsPage.GetIconColor(category) == GetIconColor(category) + " text-white"
            <==> category in {"skill", "collaboration", "milestone", "streak"}
  {
  }

  datatype Row = Row(key: int, icon: Icon, color: string, name: string, description: string, when: string)

  /** One row: keyed by the unlock, showing its achievement and how long ago it was unlocked. */
  function RowOf(entry: AchievementDetails, now: int): (r: Row)
    requires entry.achievement.Some?
    ensures r.key == entry.unlock.id
    ensures r.name == entry.achievement.value.name && r.description == entry.achievement.value.description
    ensures r.when == FormatTimeAgo(now, entry.unlock.unlockedAt) && |r.when| > 5
  {
    var a := entry.achievement.value;
    Row(entry.unlock.id, GetIcon(a.icon), GetIconColor(a.category), a.name, a.description,
        FormatTimeAgo(now, entry.unlock.unlockedAt))
  }

  /** The rendered list: `map` returning `null` for an entry without an achievement. */
  function Rows(entries: seq<AchievementDetails>, now: int): (r: seq<Row>)
    ensures |r| <= |entries|
  {
    if entries == [] then []
    else if entries[0].achievement.None? then Rows(entries[1..], now)
    else [RowOf(entries[0], now)] + Rows(entries[1..], now)
  }

  /** The rows are exactly the joined entries, in order, each rendered. */
  lemma {:induction false} RowsOfJoined(entries: seq<AchievementDetails>, now: int)
    ensures var joined := Filter(entries, AchievementsPage.HasAchievement);
      |Rows(entries, now)| == |joined| &&
      forall i :: 0 <= i < |joined| ==> Rows(entries, now)[i] == RowOf(joined[i], now)
  {
    if entries != [] {
      var rest, joinedRest := Rows(entries[1..], now), Filter(entries[1..], AchievementsPage.HasAchievement);
      RowsOfJoined(entries[1..], now);
      if entries[0].achievement.Some? {
        assert Rows(entries, now) == [RowOf(entries[0], now)] + rest;
        assert Filter(entries, AchievementsPage.HasAchievement) == [entries[0]] + joinedRest;
      } else {
        assert Rows(entries, now) == rest;
        assert Filter(entries, AchievementsPage.HasAchievement) == joinedRest;
      }
    }
  }
}

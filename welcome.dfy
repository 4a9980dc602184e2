/**
 * The welcome banner: the greeting's first name, the next level, and the XP window
 * of the current level with its progress bar.
 */
module Welcome {
  import opened Text

  const LevelXp: int := 1000

  datatype Banner = Banner(
    firstName: string, nextLevel: int,
    currentLevelXp: int, nextLevelXp: int, progressXp: int, windowXp: int,
    barWidth: real)

  /**
   * `user.name.split(' ')[0]`, `user.level + 1`, the window `(level-1)*1000 ..
   * level*1000`, `xp - currentLevelXp` unclamped, and the bar width
   * `Math.min(progress / window * 100, 100)` on exact reals.
   */
  function BannerFor(name: string, xp: int, level: int): (b: Banner)
    ensures b.firstName <= name && ' ' !in b.firstName
    ensures |b.firstName| < |name| ==> name[|b.firstName|] == ' '
    ensures b.nextLevel == level + 1
    ensures b.currentLevelXp == (level - 1) * LevelXp && b.nextLevelXp == level * LevelXp
    ensures b.windowXp == LevelXp
    ensures b.currentLevelXp + b.progressXp == xp
    ensures b.barWidth <= 100.0
    ensures b.progressXp <= LevelXp ==> b.barWidth == b.progressXp as real / 10.0
    ensures b.progressXp >= LevelXp ==> b.barWidth == 100.0
    ensures b.progressXp < 0 <==> b.barWidth < 0.0
  {
    var currentLevelXp := (level - 1) * LevelXp;
    var nextLevelXp := level * LevelXp;
    var progressXp := xp - currentLevelXp;
    var percent := progressXp as real / (nextLevelXp - currentLevelXp) as real * 100.0;
    Banner(Split(name)[0], level + 1, currentLevelXp, nextLevelXp, progressXp,
           nextLevelXp - currentLevelXp, if percent <= 100.0 then percent else 100.0)
  }

  /** The seeded user (2847 XP at level 12) is 8153 XP behind the window, so the bar is negative. */
  lemma SeedUserBanner()
    ensures BannerFor("John Smith", 2847, 12).firstName == "John"
    ensures BannerFor("John Smith", 2847, 12).progressXp == -8153
    ensures BannerFor("John Smith", 2847, 12).barWidth < 0.0
  {
    assert "John Smith" == "John" + " " + "Smith";
    SplitWordThenSpace("John", "Smith");
  }
}

/** The skill-development card: a colour band per proficiency and the level's display form. */
module SkillCard {
  import opened Text

  /** `getSkillColor`: the bands start at 80, 60 and 40. */
  function SkillColor(proficiency: int): (r: string)
    ensures r == "bg-success" <==> proficiency >= 80
    ensures r == "bg-primary" <==> 60 <= proficiency < 80
    ensures r == "bg-secondary" <==> 40 <= proficiency < 60
    ensures r == "bg-warning" <==> proficiency < 40
  {
    if proficiency >= 80 then "bg-success"
    else if proficiency >= 60 then "bg-primary"
    else if proficiency >= 40 then "bg-secondary"
    else "bg-warning"
  }

  /** The bands in order, lowest first. */
  function BandRank(color: string): nat {
    match color
    case "bg-warning" => 0
    case "bg-secondary" => 1
    case "bg-primary" => 2
    case _ => 3
  }

  /** A higher proficiency never falls into a lower band. */
  lemma SkillColorMonotone(p: int, q: int)
    requires p <= q
    ensures BandRank(SkillColor(p)) <= BandRank(SkillColor(q))
  {
  }

  /** `level.charAt(0).toUpperCase() + level.slice(1)`. */
  function FormatLevel(level: string): (r: string)
    ensures |r| == |level|
    ensures |level| > 0 ==> r[0] == UpperChar(level[0]) && r[1..] == level[1..]
    ensures level == "" ==> r == ""
  {
    if level == "" then "" else [UpperChar(level[0])] + level[1..]
  }

  /** Formatting an already formatted level changes nothing. */
  lemma FormatLevelIdempotent(level: string)
    ensures FormatLevel(FormatLevel(level)) == FormatLevel(level)
  {
  }
}

/** The icon components the achievement views choose between. */
module Icons {
  datatype Icon = Trophy | Medal | Star | Target | Users | Zap

  /** `getIcon`: an achievement's icon class name to its component; unknown names get the trophy. */
  function GetIcon(iconName: string): (r: Icon)
    ensures r in {Trophy, Medal, Star}
    ensures r == Medal <==> iconName == "fas fa-medal"
    ensures r == Star <==> iconName == "fas fa-star"
    ensures r == Trophy <==> iconName != "fas fa-medal" && iconName != "fas fa-star"
  {
    match iconName
    case "fas fa-trophy" => Trophy
    case "fas fa-medal" => Medal
    case "fas fa-star" => Star
    case _ => Trophy
  }
}

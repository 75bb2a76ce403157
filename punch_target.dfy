/** Agents/PunchTarget.cs: the point on the opponent that a punch is aimed at. */
module PunchTargets {

  datatype Target = Chin | LeftCheek | RightCheek

  /** GetTarget: a jab goes to the chin, each hook to the opposite cheek, anything else to the chin. */
  function GetTarget(punchType: string): (t: Target)
    ensures t == LeftCheek <==> punchType == "Right_Hook"
    ensures t == RightCheek <==> punchType == "Left_Hook"
    ensures t == Chin <==> punchType != "Right_Hook" && punchType != "Left_Hook"
  {
    match punchType
    case "Jab" => Chin
    case "Right_Hook" => LeftCheek
    case "Left_Hook" => RightCheek
    case _ => Chin
  }
}

/** The header of a launch row, which carries its own copy of the status
    badge colour rule. */
module SpaceLaunchHeader {
  import SpaceLaunchView

  /** `statusColor(for:)` of the header section. */
  function StatusColor(status: string): (color: SpaceLaunchView.Color)
    ensures color == SpaceLaunchView.Blue <==> status == "Scheduled"
    ensures color == SpaceLaunchView.Green <==> status == "Launched"
    ensures color == SpaceLaunchView.Gray <==> status != "Scheduled" && status != "Launched"
  {
    match status
    case "Scheduled" => SpaceLaunchView.Blue
    case "Launched" => SpaceLaunchView.Green
    case _ => SpaceLaunchView.Gray
  }

  /** The two copies of the rule agree on every status. */
  lemma AgreesWithLaunchView(status: string)
    ensures StatusColor(status) == SpaceLaunchView.StatusColor(status)
  {
  }
}

/** The launch list screen: the launches it shows and the colour of each
    launch's status badge. */
module SpaceLaunchView {
  import SpaceLaunchModel

  /** The badge colours the screen uses. */
  datatype Color = Blue | Green | Gray

  /** The launches the screen lists. */
  const Launches: seq<SpaceLaunchModel.SpaceLaunch> := SpaceLaunchModel.SampleData

  /** `statusColor(for:)`: blue for a scheduled launch, green for one that has
      launched, gray for any other status. */
  function StatusColor(status: string): (color: Color)
    ensures color == Blue <==> status == "Scheduled"
    ensures color == Green <==> status == "Launched"
    ensures color == Gray <==> status != "Scheduled" && status != "Launched"
  {
    match status
    case "Scheduled" => Blue
    case "Launched" => Green
    case _ => Gray
  }

  /** Every launch on the screen gets a blue or green badge, never gray:
      four scheduled launches are blue and the two launched ones green. */
  lemma LaunchBadges()
    ensures |Launches| == 6
    ensures forall l :: l in Launches ==> StatusColor(l.status) != Gray
    ensures forall i :: 0 <= i < |Launches| ==>
      StatusColor(Launches[i].status) == (if i == 2 || i == 3 then Green else Blue)
  {
    SpaceLaunchModel.SampleDataShape();
  }
}

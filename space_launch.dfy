/** `SpaceLaunch`, one entry of the launch list, and the hard-coded table of
    six launches. */
module SpaceLaunchModel {
  import opened SwiftStrings

  datatype SpaceLaunch = SpaceLaunch(
    name: string,
    agency: string,
    launchDate: string,
    location: string,
    missionType: string,
    status: string)

  const SampleData: seq<SpaceLaunch> := [
    SpaceLaunch("Falcon 9 - Starlink Group 6-25", "SpaceX", "2024-10-20",
                "Cape Canaveral, FL", "Communications", "Scheduled"),
    SpaceLaunch("Artemis II", "NASA", "2025-09-01",
                "Kennedy Space Center, FL", "Crewed Lunar Flyby", "Scheduled"),
    SpaceLaunch("JUICE - Jupiter Icy Moons Explorer", "ESA", "2023-04-14",
                "Kourou, French Guiana", "Planetary Exploration", "Launched"),
    SpaceLaunch("Chandrayaan-3", "ISRO", "2023-07-14",
                "Satish Dhawan Space Centre", "Lunar Landing", "Launched"),
    SpaceLaunch("New Glenn - First Flight", "Blue Origin", "2024-12-01",
                "Cape Canaveral, FL", "Test Flight", "Scheduled"),
    SpaceLaunch("Crew Dragon - Crew-8", "SpaceX", "2024-11-15",
                "Kennedy Space Center, FL", "ISS Crew Transport", "Scheduled")
  ]

  /** The set of agencies that appear in a list of launches. */
  function Agencies(launches: seq<SpaceLaunch>): set<string> {
    if launches == [] then {} else {launches[0].agency} + Agencies(launches[1..])
  }

  /** An agency is in the set exactly when some launch is flown by it. */
  lemma {:induction false} AgenciesOf(launches: seq<SpaceLaunch>, a: string)
    ensures a in Agencies(launches) <==> exists l :: l in launches && l.agency == a
  {
    if launches != [] {
      AgenciesOf(launches[1..], a);
      assert forall l :: l in launches <==> l == launches[0] || l in launches[1..];
    }
  }

  lemma SampleDataShape()
    ensures |SampleData| == 6
    ensures forall l :: l in SampleData ==> l.status == "Scheduled" || l.status == "Launched"
    ensures forall l :: l in SampleData ==>
      l.name != "" && l.agency != "" && l.launchDate != "" && l.location != "" && l.missionType != "" && l.status != ""
    ensures SampleData[0].missionType != SampleData[1].missionType
  {
  }

  lemma SampleNamedMissions()
    ensures SampleData[1].name == "Artemis II" && SampleData[1].agency == "NASA" && SampleData[1].status == "Scheduled"
    ensures SampleData[3].name == "Chandrayaan-3" && SampleData[3].agency == "ISRO" && SampleData[3].status == "Launched"
  {
  }

  lemma AgenciesFrom(launches: seq<SpaceLaunch>, i: nat)
    requires i < |launches|
    ensures Agencies(launches[i..]) == {launches[i].agency} + Agencies(launches[i + 1..])
  {
    assert launches[i..][1..] == launches[i + 1..];
  }

  /** Five distinct agencies fly the six launches. */
  lemma SampleAgencies()
    ensures Agencies(SampleData) == {"SpaceX", "NASA", "ESA", "ISRO", "Blue Origin"}
    ensures |Agencies(SampleData)| == 5
  {
    var d := SampleData;
    assert Agencies(d[6..]) == {};
    AgenciesFrom(d, 5);
    AgenciesFrom(d, 4);
    AgenciesFrom(d, 3);
    AgenciesFrom(d, 2);
    AgenciesFrom(d, 1);
    AgenciesFrom(d, 0);
    assert d[0..] == d;
    SampleAgencyCount();
  }

  lemma SampleAgencyCount()
    ensures |{"SpaceX", "NASA", "ESA", "ISRO", "Blue Origin"}| == 5
  {
  }

  /** Every location names a place after a comma, or a space centre. */
  lemma SampleLocations()
    ensures forall l :: l in SampleData ==> Contains(l.location, ",") || Contains(l.location, "Centre")
  {
    assert "Cape Canaveral, FL"[14..][..1] == ",";
    assert "Kennedy Space Center, FL"[20..][..1] == ",";
    assert "Kourou, French Guiana"[6..][..1] == ",";
    assert "Satish Dhawan Space Centre"[20..][..6] == "Centre";
  }
}

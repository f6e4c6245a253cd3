/** `SpacePicture`, the entry of the home screen's picture list, its two
    initialisers and the hard-coded sample pictures. The memberwise
    initialiser is the datatype's constructor, which stores its four
    arguments as they are. */
module SpacePictureModel {
  import opened Wrappers
  import opened Json
  import opened APODModel

  datatype SpacePicture = SpacePicture(title: string, description: string, imageName: string, date: string)

  /** The SF Symbol given to every picture that comes from the API. */
  const ApiImageName: string := "photo"

  /** `init(from:)`: the picture of an APOD entry. */
  function FromAPOD(apod: APODResponse): (p: SpacePicture)
    ensures p == SpacePicture(apod.title, apod.explanation, ApiImageName, apod.date)
  {
    SpacePicture(apod.title, apod.explanation, ApiImageName, apod.date)
  }

  /** The picture depends on the title, explanation and date only: the image
      links, media type and service version are dropped. */
  lemma FromAPODIgnoresLinks(a: APODResponse, b: APODResponse)
    requires a.title == b.title && a.explanation == b.explanation && a.date == b.date
    ensures FromAPOD(a) == FromAPOD(b)
  {
  }

  /** The picture of a decoded JSON entry carries that entry's title,
      explanation and date strings. */
  lemma PictureOfDecodedEntry(j: Json)
    requires DecodeAPOD(j).Success?
    ensures var p := FromAPOD(DecodeAPOD(j).value);
      && j.JObj?
      && j.fields[TitleKey] == JStr(p.title)
      && j.fields[ExplanationKey] == JStr(p.description)
      && j.fields[DateKey] == JStr(p.date)
      && p.imageName == ApiImageName
  {
    DecodeAPODSucceedsIff(j);
  }

  const SampleData: seq<SpacePicture> := [
    SpacePicture(
      "Andromeda Galaxy",
      "The Andromeda Galaxy is a barred spiral galaxy and is the nearest major galaxy to the Milky Way.",
      "star.fill",
      "2024-10-15"),
    SpacePicture(
      "Eagle Nebula",
      "The Eagle Nebula is a young open cluster of stars in the constellation Serpens, discovered by Jean-Philippe de Cheseaux in 1745-46.",
      "sparkles",
      "2024-10-14"),
    SpacePicture(
      "Hubble Deep Field",
      "An image of a small region in the constellation Ursa Major, constructed from a series of observations by the Hubble Space Telescope.",
      "square.grid.3x3.fill",
      "2024-10-13"),
    SpacePicture(
      "Jupiter's Great Red Spot",
      "A persistent high-pressure region in the atmosphere of Jupiter, producing an anticyclonic storm.",
      "circle.fill",
      "2024-10-12"),
    SpacePicture(
      "Saturn's Rings",
      "Saturn's rings are made of billions of pieces of ice, rock and dust, some as small as a grain of sand.",
      "circle.circle.fill",
      "2024-10-11")
  ]

  lemma SampleDataComplete()
    ensures |SampleData| == 5
    ensures forall p :: p in SampleData ==>
      p.title != "" && p.description != "" && p.imageName != "" && p.date != ""
  {
  }

  lemma SampleDataImages()
    ensures SampleData[0].title == "Andromeda Galaxy" && SampleData[0].imageName == "star.fill"
    ensures SampleData[1].title == "Eagle Nebula" && SampleData[1].imageName == "sparkles"
    ensures SampleData[2].title == "Hubble Deep Field"
    ensures SampleData[3].title == "Jupiter's Great Red Spot"
    ensures SampleData[4].title == "Saturn's Rings"
    ensures forall p :: p in SampleData ==> p.imageName != ApiImageName
  {
  }
}

/** The Mars weather record of the Mars screen, its integer convenience
    views, and the hard-coded table of five sample sols. */
module MarsWeatherModel {
  import opened Wrappers
  import opened SwiftNumbers

  /** Average, minimum, maximum and sample count of one sensor over a sol.
      The source declares three structs of this same shape. */
  datatype Aggregate = Aggregate(average: real, minimum: real, maximum: real, count: int)

  type TemperatureData = Aggregate
  type PressureData = Aggregate
  type WindSpeedData = Aggregate

  datatype WindDirectionPoint = WindDirectionPoint(
    compassDegrees: real,
    compassPoint: string,
    compassRight: real,
    compassUp: real,
    count: int)

  datatype WindDirectionData = WindDirectionData(
    mostCommon: Option<WindDirectionPoint>,
    directions: seq<WindDirectionPoint>)

  datatype MarsWeather = MarsWeather(
    sol: int,
    earthDate: string,
    firstUTC: string,
    lastUTC: string,
    temperature: TemperatureData,
    pressure: PressureData,
    windSpeed: WindSpeedData,
    windDirection: Option<WindDirectionData>,
    season: string,
    northernSeason: string,
    southernSeason: string,
    monthOrdinal: int)

  // The convenience properties kept for backward compatibility: each is the
  // matching Double field truncated toward zero.

  function MinTemp(w: MarsWeather): (t: int)
    ensures TruncatesTo(w.temperature.minimum, t)
  {
    Trunc(w.temperature.minimum)
  }

  function MaxTemp(w: MarsWeather): (t: int)
    ensures TruncatesTo(w.temperature.maximum, t)
  {
    Trunc(w.temperature.maximum)
  }

  function AverageTemp(w: MarsWeather): (t: int)
    ensures TruncatesTo(w.temperature.average, t)
  {
    Trunc(w.temperature.average)
  }

  function AveragePressure(w: MarsWeather): (p: int)
    ensures TruncatesTo(w.pressure.average, p)
  {
    Trunc(w.pressure.average)
  }

  function AverageWindSpeed(w: MarsWeather): (v: int)
    ensures TruncatesTo(w.windSpeed.average, v)
  {
    Trunc(w.windSpeed.average)
  }

  function SampleEntry(sol: int, day: string, t: TemperatureData, p: PressureData, v: WindSpeedData,
                       mostCommon: WindDirectionPoint): MarsWeather
  {
    MarsWeather(
      sol, "2024-10-" + day, "2024-10-" + day + "T00:00:00Z", "2024-10-" + day + "T23:59:59Z",
      t, p, v, Some(WindDirectionData(Some(mostCommon), [])),
      "fall", "early winter", "early summer", 10)
  }

  const SampleData: seq<MarsWeather> := [
    SampleEntry(4012, "15",
      Aggregate(-62.3, -96.9, -15.9, 177556), Aggregate(750.6, 722.1, 768.8, 887776),
      Aggregate(7.2, 1.1, 22.5, 88628), WindDirectionPoint(292.5, "WNW", -0.924, 0.383, 30283)),
    SampleEntry(4011, "14",
      Aggregate(-64.5, -98.2, -18.5, 175432), Aggregate(748.3, 720.5, 765.2, 885123),
      Aggregate(8.5, 1.3, 24.1, 87234), WindDirectionPoint(270.0, "W", -1.0, 0.0, 28456)),
    SampleEntry(4010, "13",
      Aggregate(-59.8, -93.4, -17.2, 179234), Aggregate(752.1, 724.8, 771.5, 889456),
      Aggregate(6.8, 0.9, 20.3, 89123), WindDirectionPoint(315.0, "NW", -0.707, 0.707, 32145)),
    SampleEntry(4009, "12",
      Aggregate(-61.7, -95.8, -16.4, 176789), Aggregate(749.5, 721.9, 766.8, 886234),
      Aggregate(7.9, 1.2, 23.7, 88456), WindDirectionPoint(292.5, "WNW", -0.924, 0.383, 29876)),
    SampleEntry(4008, "11",
      Aggregate(-63.2, -97.1, -18.8, 174567), Aggregate(751.4, 723.6, 769.3, 887890),
      Aggregate(7.5, 1.0, 21.8, 87890), WindDirectionPoint(270.0, "W", -1.0, 0.0, 30123))
  ]

  lemma SampleDataShape()
    ensures |SampleData| == 5
    ensures forall i :: 0 <= i < |SampleData| ==> SampleData[i].sol == 4012 - i
    ensures forall i, j :: 0 <= i < j < |SampleData| ==> SampleData[i].sol > SampleData[j].sol
  {
  }

  lemma SampleTemperaturesOrdered()
    ensures forall w :: w in SampleData ==> w.temperature.minimum < w.temperature.maximum
    ensures forall w :: w in SampleData ==> MinTemp(w) < MaxTemp(w)
  {
  }

  lemma SampleSeasonsComplete()
    ensures forall w :: w in SampleData ==>
      1 <= w.monthOrdinal <= 12 && w.season != "" && w.northernSeason != "" && w.southernSeason != ""
  {
  }

  lemma SampleWindDirections()
    ensures forall w :: w in SampleData ==> w.windDirection.Some?
    ensures forall w :: w in SampleData && w.windDirection.Some? && w.windDirection.value.mostCommon.Some? ==>
      var p := w.windDirection.value.mostCommon.value;
      0.0 <= p.compassDegrees < 360.0 && p.compassPoint != "" && p.count > 0
  {
  }

  /** Every sample aggregate was built from a positive number of samples. */
  lemma SampleCountsPositive()
    ensures forall w :: w in SampleData ==>
      w.temperature.count > 0 && w.pressure.count > 0 && w.windSpeed.count > 0
  {
  }

  /** The sample readings lie in ranges realistic for Mars: temperatures
      from -125 to 20 degrees (as reals and as the truncated views), pressure
      averages from 400 to 870 and wind averages from 0 to 60. */
  lemma SampleReadingsRealistic()
    ensures forall w :: w in SampleData ==> w.temperature.minimum >= -125.0 && w.temperature.maximum <= 20.0
    ensures forall w :: w in SampleData ==> MinTemp(w) >= -125 && MaxTemp(w) <= 20
    ensures forall w :: w in SampleData ==> 400.0 <= w.pressure.average <= 870.0
    ensures forall w :: w in SampleData ==> 0.0 <= w.windSpeed.average <= 60.0
    ensures forall w :: w in SampleData ==> w.earthDate != "" && w.firstUTC != "" && w.lastUTC != ""
  {
  }

  /** The convenience views of the first sample entry, as the tests read them. */
  lemma SampleConvenienceViews()
    ensures MinTemp(SampleData[0]) == -96 && MaxTemp(SampleData[0]) == -15
    ensures AverageTemp(SampleData[0]) == -62
    ensures AveragePressure(SampleData[0]) == 750 && AverageWindSpeed(SampleData[0]) == 7
  {
    var w := SampleData[0];
    TruncatesToUnique(-96.9, MinTemp(w), -96);
    TruncatesToUnique(-15.9, MaxTemp(w), -15);
    TruncatesToUnique(-62.3, AverageTemp(w), -62);
    TruncatesToUnique(750.6, AveragePressure(w), 750);
    TruncatesToUnique(7.2, AverageWindSpeed(w), 7);
  }
}

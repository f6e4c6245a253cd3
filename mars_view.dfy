/** The Mars weather screen's state and its load cycle: the list it shows,
    whether a load is in flight, and the note shown under the title. */
module MarsScreen {
  import opened Wrappers
  import opened Json
  import opened SwiftStrings
  import MarsWeatherModel
  import InSight
  import ObservationPeriod

  /** A row of the list: a sample record, or a record decoded from the feed. */
  datatype WeatherRow =
    | SampleRow(weather: MarsWeatherModel.MarsWeather)
    | FeedRow(record: InSight.SolWeather)

  /** The note shown whenever the feed gives nothing to show. */
  const MissionEndedNote: string := "InSight mission ended. Showing sample data."

  /** What `fetchMarsWeather` hands to its completion: the response body,
      already read as JSON (`None` when it is not JSON), or the error. */
  type FetchResult = Result<Option<Json>, string>

  function SampleRows(): (rows: seq<WeatherRow>)
    ensures |rows| == |MarsWeatherModel.SampleData|
    ensures forall i :: 0 <= i < |rows| ==> rows[i] == SampleRow(MarsWeatherModel.SampleData[i])
  {
    seq(|MarsWeatherModel.SampleData|, i requires 0 <= i < |MarsWeatherModel.SampleData| =>
      SampleRow(MarsWeatherModel.SampleData[i]))
  }

  function FeedRows(records: seq<InSight.SolWeather>): (rows: seq<WeatherRow>)
    ensures |rows| == |records|
    ensures forall i :: 0 <= i < |rows| ==> rows[i] == FeedRow(records[i])
  {
    seq(|records|, i requires 0 <= i < |records| => FeedRow(records[i]))
  }

  /** Whether a completed fetch replaces the list: it must succeed and decode
      to at least one record. */
  predicate ShowsFeed(result: FetchResult, today: string) {
    result.Success? && InSight.Decode(result.value, today) != []
  }

  class MarsView {
    var weatherData: seq<WeatherRow>
    var isLoading: bool
    var errorMessage: Option<string>

    /** The list is never empty and never longer than five rows: it starts
        as the five sample sols and is only ever replaced by a non-empty
        decode, which has at most five records. */
    ghost predicate Valid()
      reads this
    {
      1 <= |weatherData| <= InSight.MaxSols
    }

    constructor ()
      ensures Valid()
      ensures weatherData == SampleRows() && !isLoading && errorMessage == None
    {
      MarsWeatherModel.SampleDataShape();
      weatherData := SampleRows();
      isLoading := false;
      errorMessage := None;
    }

    /** The start of `loadMarsWeather`, before the fetch is issued. */
    method BeginLoad()
      requires Valid()
      modifies this
      ensures Valid()
      ensures weatherData == old(weatherData)
      ensures isLoading && errorMessage == None
    {
      isLoading := true;
      errorMessage := None;
    }

    /** The completion handler of `loadMarsWeather`. */
    method CompleteLoad(result: FetchResult, today: string)
      requires Valid()
      modifies this
      ensures Valid()
      ensures !isLoading
      ensures ShowsFeed(result, today) ==>
        weatherData == FeedRows(InSight.Decode(result.value, today)) && errorMessage == old(errorMessage)
      ensures !ShowsFeed(result, today) ==>
        weatherData == old(weatherData) && errorMessage == Some(MissionEndedNote)
    {
      isLoading := false;
      match result
      case Success(data) =>
        var parsedWeather := InSight.ParseMarsWeatherData(data, today);
        if parsedWeather != [] {
          weatherData := FeedRows(parsedWeather);
        } else {
          errorMessage := Some(MissionEndedNote);
        }
      case Failure(_) =>
        errorMessage := Some(MissionEndedNote);
    }

    /** `loadMarsWeather` with the fetch's outcome given: one load, start to
        completion, with no other load in between. */
    method LoadMarsWeather(result: FetchResult, today: string)
      requires Valid()
      modifies this
      ensures Valid()
      ensures !isLoading
      ensures ShowsFeed(result, today) ==>
        weatherData == FeedRows(InSight.Decode(result.value, today)) && errorMessage == None
      ensures !ShowsFeed(result, today) ==>
        weatherData == old(weatherData) && errorMessage == Some(MissionEndedNote)
    {
      BeginLoad();
      CompleteLoad(result, today);
    }
  }

  /** The screen's own copy of `formatUTCTime(_:)`. */
  function FormatUTCTime(utc: string): (shown: string)
    requires ObservationPeriod.ZAfterT(utc)
    ensures 'T' !in utc || 'Z' !in utc ==> shown == utc
  {
    match (FirstIndex(utc, 'T'), FirstIndex(utc, 'Z'))
    case (Some(t), Some(z)) =>
      var components := Split(utc[t + 1..z], ':');
      if |components| >= 2 then components[0] + ":" + components[1] + " UTC" else utc
    case _ => utc
  }

  /** The two copies of the formatter agree on every timestamp they accept. */
  lemma FormatUTCTimeAgrees(utc: string)
    requires ObservationPeriod.ZAfterT(utc)
    ensures FormatUTCTime(utc) == ObservationPeriod.FormatUTCTime(utc)
  {
  }

  /** The example of the source's comment. */
  lemma FormatUTCTimeExample()
    ensures ObservationPeriod.ZAfterT("2020-10-19T18:32:20Z")
    ensures FormatUTCTime("2020-10-19T18:32:20Z") == "18:32 UTC"
  {
    ObservationPeriod.FormatUTCTimeExample();
    FormatUTCTimeAgrees("2020-10-19T18:32:20Z");
  }
}

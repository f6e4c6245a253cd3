/** The InSight weather feed decoder: `parseMarsWeatherData(from:)` and its
    date helper `extractDate(from:)`.

    The feed is a JSON object whose `sol_keys` array lists sol identifiers,
    each also a top-level key holding that sol's readings. The decoder looks
    at the first five listed keys, in order, skips a key whose value is not an
    object or whose text is not an integer, and builds one record per
    remaining key, putting a fixed default in place of every missing reading.
    Any structural failure gives the empty list. */
module InSight {
  import opened Wrappers
  import opened Json
  import opened SwiftStrings
  import opened SwiftNumbers

  /** Only this many of the listed sol keys are examined. */
  const MaxSols: nat := 5

  const DefaultMinTemp: int := -89
  const DefaultMaxTemp: int := -18
  const DefaultPressure: int := 750
  const DefaultWindSpeed: int := 12
  const UnknownSeason: string := "Unknown"

  /** The span the decoder assumes between a sol's average and its minimum. */
  const MinTempOffset: real := 35.0

  /** The seven values the decoder computes for one sol. */
  datatype SolWeather = SolWeather(
    sol: int,
    earthDate: string,
    minTemp: int,
    maxTemp: int,
    pressure: int,
    windSpeed: int,
    season: string)

  /** A feed that passed the structural checks: the top-level object and its
      `sol_keys` list. */
  datatype Feed = Feed(top: map<string, Json>, solKeys: seq<string>)

  /** `JSONSerialization.jsonObject(with:) as? [String: Any]` followed by
      `json["sol_keys"] as? [String]`. `data` is `None` when the bytes are not
      JSON at all. */
  function ReadFeed(data: Option<Json>): (f: Option<Feed>)
    ensures f.Some? <==>
      data.Some? && data.value.JObj? && "sol_keys" in data.value.fields
      && AsStringArray(data.value.fields["sol_keys"]).Some?
    ensures f.Some? ==>
      f.value.top == data.value.fields && AsStringArray(f.value.top["sol_keys"]) == Some(f.value.solKeys)
  {
    match data
    case None => None
    case Some(j) =>
      match AsObject(j)
      case None => None
      case Some(top) =>
        if "sol_keys" !in top then None
        else match AsStringArray(top["sol_keys"])
          case None => None
          case Some(keys) => Some(Feed(top, keys))
  }

  /** `solKeys.prefix(5)`. */
  function FirstKeys(keys: seq<string>): (r: seq<string>)
    ensures |r| <= MaxSols && |r| <= |keys|
    ensures |keys| <= MaxSols ==> r == keys
    ensures |keys| >= MaxSols ==> |r| == MaxSols
    ensures r == keys[..|r|]
  {
    if |keys| <= MaxSols then keys else keys[..MaxSols]
  }

  /** `extractDate(from:)`: the text before the first `T`, or `today` (the
      current date, formatted `yyyy-MM-dd`) when there is no `T`. */
  function ExtractDate(utc: string, today: string): (date: string)
    ensures 'T' in utc ==> |date| < |utc| && date == utc[..|date|] && utc[|date|] == 'T' && 'T' !in date
    ensures 'T' !in utc ==> date == today
  {
    match FirstIndex(utc, 'T')
    case Some(i) => utc[..i]
    case None => today
  }

  /** `solData[sensor] as? [String: Any]` and then `["av"] as? Double`. */
  function SensorAverage(solData: map<string, Json>, sensor: string): (av: Option<real>)
    ensures av.Some? <==> sensor in solData && solData[sensor].JObj? && "av" in solData[sensor].fields
                          && (solData[sensor].fields["av"].JNum? || solData[sensor].fields["av"].JBool?)
    ensures (sensor in solData && solData[sensor].JObj? && "av" in solData[sensor].fields
             && solData[sensor].fields["av"].JNum?) ==> av == Some(solData[sensor].fields["av"].n)
  {
    match ObjectAt(solData, sensor)
    case None => None
    case Some(readings) => DoubleAt(readings, "av")
  }

  /** `solData["First_UTC"] as? String ?? ""`. */
  function FirstUTC(solData: map<string, Json>): string {
    StringAt(solData, "First_UTC").GetOr("")
  }

  /** `(minTemp, maxTemp)`: from `AT.av` when present, else the defaults. */
  function TemperatureReadings(solData: map<string, Json>): (int, int) {
    match SensorAverage(solData, "AT")
    case Some(av) => (Trunc(av - MinTempOffset), Trunc(av))
    case None => (DefaultMinTemp, DefaultMaxTemp)
  }

  /** `Int(av)` of the sensor's average when present, else `default`. */
  function Reading(solData: map<string, Json>, sensor: string, default: int): int {
    match SensorAverage(solData, sensor)
    case Some(av) => Trunc(av)
    case None => default
  }

  /** The record for one sol whose key parsed as `sol`. */
  function BuildRecord(solData: map<string, Json>, sol: int, today: string): SolWeather {
    var (minTemp, maxTemp) := TemperatureReadings(solData);
    SolWeather(sol, ExtractDate(FirstUTC(solData), today), minTemp, maxTemp,
               Reading(solData, "PRE", DefaultPressure), Reading(solData, "HWS", DefaultWindSpeed),
               StringAt(solData, "Season").GetOr(UnknownSeason))
  }

  /** Each reading of a record falls back to its own default, independently
      of the others: the temperature to -89 / -18 without a numeric `AT.av`,
      the pressure to 750 without `PRE.av`, the wind speed to 12 without
      `HWS.av`, the season to "Unknown" and the first UTC time to "" without
      a string. A given average is truncated toward zero, and the minimum
      temperature is taken 35 below the average. */
  lemma BuildRecordFields(solData: map<string, Json>, sol: int, today: string)
    ensures var w := BuildRecord(solData, sol, today);
      && w.sol == sol
      && (match SensorAverage(solData, "AT")
          case Some(av) => TruncatesTo(av, w.maxTemp) && TruncatesTo(av - MinTempOffset, w.minTemp)
          case None => w.minTemp == DefaultMinTemp && w.maxTemp == DefaultMaxTemp)
      && (match SensorAverage(solData, "PRE")
          case Some(av) => TruncatesTo(av, w.pressure)
          case None => w.pressure == DefaultPressure)
      && (match SensorAverage(solData, "HWS")
          case Some(av) => TruncatesTo(av, w.windSpeed)
          case None => w.windSpeed == DefaultWindSpeed)
      && w.season == (if "Season" in solData && solData["Season"].JStr? then solData["Season"].s else UnknownSeason)
      && w.earthDate == ExtractDate(if "First_UTC" in solData && solData["First_UTC"].JStr?
                                    then solData["First_UTC"].s else "", today)
  {
  }

  /** What one listed key contributes: a record exactly when its sibling value
      is an object and its text parses as an `Int`. */
  function SolRecord(top: map<string, Json>, key: string, today: string): (r: Option<SolWeather>)
    ensures r.Some? <==> key in top && top[key].JObj? && ParseInt(key).Some?
    ensures r.Some? ==> r.value == BuildRecord(top[key].fields, ParseInt(key).value, today)
  {
    match ObjectAt(top, key)
    case None => None
    case Some(solData) =>
      match ParseInt(key)
      case None => None
      case Some(sol) => Some(BuildRecord(solData, sol, today))
  }

  function Emit(r: Option<SolWeather>): seq<SolWeather> {
    match r
    case Some(w) => [w]
    case None => []
  }

  /** The records of the listed keys, in listing order (built from the back,
      as the loop appends). */
  function Records(top: map<string, Json>, keys: seq<string>, today: string): (rs: seq<SolWeather>)
    ensures |rs| <= |keys|
    decreases |keys|
  {
    if keys == [] then []
    else Records(top, keys[..|keys| - 1], today) + Emit(SolRecord(top, keys[|keys| - 1], today))
  }

  /** The decoder's result: empty on any structural failure, otherwise the
      records of the first five listed keys. */
  function Decode(data: Option<Json>, today: string): (rs: seq<SolWeather>)
    ensures |rs| <= MaxSols
    ensures ReadFeed(data).None? ==> rs == []
  {
    match ReadFeed(data)
    case None => []
    case Some(feed) => Records(feed.top, FirstKeys(feed.solKeys), today)
  }

  /** The body of the loop for one usable key: every reading starts at its
      default and is overwritten when the sol's object provides it. */
  method ReadSol(solData: map<string, Json>, sol: int, today: string) returns (weather: SolWeather)
    ensures weather == BuildRecord(solData, sol, today)
  {
    var minTemp := DefaultMinTemp;
    var maxTemp := DefaultMaxTemp;
    if "AT" in solData && solData["AT"].JObj? && "av" in solData["AT"].fields {
      var av := AsDouble(solData["AT"].fields["av"]);
      if av.Some? {
        minTemp := Trunc(av.value - MinTempOffset);
        maxTemp := Trunc(av.value);
      }
    }
    assert (minTemp, maxTemp) == TemperatureReadings(solData);

    var pressure := DefaultPressure;
    if "PRE" in solData && solData["PRE"].JObj? && "av" in solData["PRE"].fields {
      var av := AsDouble(solData["PRE"].fields["av"]);
      if av.Some? {
        pressure := Trunc(av.value);
      }
    }
    assert pressure == Reading(solData, "PRE", DefaultPressure);

    var windSpeed := DefaultWindSpeed;
    if "HWS" in solData && solData["HWS"].JObj? && "av" in solData["HWS"].fields {
      var av := AsDouble(solData["HWS"].fields["av"]);
      if av.Some? {
        windSpeed := Trunc(av.value);
      }
    }
    assert windSpeed == Reading(solData, "HWS", DefaultWindSpeed);

    var season := if "Season" in solData && solData["Season"].JStr? then solData["Season"].s else UnknownSeason;
    var firstUTC := if "First_UTC" in solData && solData["First_UTC"].JStr? then solData["First_UTC"].s else "";
    var earthDate := ExtractDate(firstUTC, today);
    weather := SolWeather(sol, earthDate, minTemp, maxTemp, pressure, windSpeed, season);
  }

  /** `parseMarsWeatherData(from:)`: the loop over `solKeys.prefix(5)` that
      appends one record per usable key. */
  method ParseMarsWeatherData(data: Option<Json>, today: string) returns (weatherData: seq<SolWeather>)
    ensures weatherData == Decode(data, today)
  {
    if data.None? || !data.value.JObj? {
      return [];
    }
    var json := data.value.fields;
    if "sol_keys" !in json {
      return [];
    }
    var listed := AsStringArray(json["sol_keys"]);
    if listed.None? {
      return [];
    }
    var solKeys := FirstKeys(listed.value);
    weatherData := [];
    for i := 0 to |solKeys|
      invariant weatherData == Records(json, solKeys[..i], today)
    {
      var solKey := solKeys[i];
      assert solKeys[..i + 1][..i] == solKeys[..i];
      if solKey in json && json[solKey].JObj? {
        var parsed := ParseInt(solKey);
        if parsed.Some? {
          var weather := ReadSol(json[solKey].fields, parsed.value, today);
          weatherData := weatherData + [weather];
        }
      }
    }
    assert solKeys[..|solKeys|] == solKeys;
  }

  // ---------------------------------------------------------------------
  // Properties of the decoder

  /** Each of the four structural failures yields the empty list. */
  lemma MalformedFeedDecodesEmpty(data: Option<Json>, today: string)
    requires || data.None?
             || !data.value.JObj?
             || "sol_keys" !in data.value.fields
             || AsStringArray(data.value.fields["sol_keys"]).None?
    ensures Decode(data, today) == []
  {
  }

  /** `idx` maps `rs`, one to one and in increasing order, to the positions
      of `outs` that hold a value, and misses none of them. */
  ghost predicate Selects<T>(outs: seq<Option<T>>, rs: seq<T>, idx: seq<nat>)
  {
    && |idx| == |rs|
    && (forall j :: 0 <= j < |idx| ==> idx[j] < |outs| && outs[idx[j]] == Some(rs[j]))
    && (forall a, b :: 0 <= a < b < |idx| ==> idx[a] < idx[b])
    && (forall i :: 0 <= i < |outs| && outs[i].Some? ==> i in idx)
  }

  /** The values held by `outs`, in order. */
  function Flatten<T>(outs: seq<Option<T>>): seq<T> {
    if outs == [] then []
    else Flatten(outs[..|outs| - 1]) + (if outs[|outs| - 1].Some? then [outs[|outs| - 1].value] else [])
  }

  lemma SelectsAppendNone<T>(outs: seq<Option<T>>, rs: seq<T>, idx: seq<nat>)
    requires Selects(outs, rs, idx)
    ensures Selects(outs + [None], rs, idx)
  {
    var o := outs + [None];
    assert forall i :: 0 <= i < |outs| ==> o[i] == outs[i];
  }

  lemma SelectsAppendSome<T>(outs: seq<Option<T>>, rs: seq<T>, idx: seq<nat>, w: T)
    requires Selects(outs, rs, idx)
    ensures Selects(outs + [Some(w)], rs + [w], idx + [|outs|])
  {
    var o, r, x := outs + [Some(w)], rs + [w], idx + [|outs|];
    assert forall i :: 0 <= i < |outs| ==> o[i] == outs[i];
    assert forall j :: 0 <= j < |idx| ==> x[j] == idx[j] && r[j] == rs[j];
    forall i | 0 <= i < |o| && o[i].Some?
      ensures i in x
    {
      if i < |outs| {
        assert i in idx;
      } else {
        assert x[|idx|] == i;
      }
    }
  }

  /** Flattening is an in-order filter of the present values. */
  lemma {:induction false} FlattenSelects<T>(outs: seq<Option<T>>) returns (idx: seq<nat>)
    ensures Selects(outs, Flatten(outs), idx)
  {
    if outs == [] {
      idx := [];
    } else {
      var n := |outs| - 1;
      var init := outs[..n];
      var idx0 := FlattenSelects(init);
      assert outs == init + [outs[n]];
      if outs[n].Some? {
        SelectsAppendSome(init, Flatten(init), idx0, outs[n].value);
        idx := idx0 + [n];
      } else {
        SelectsAppendNone(init, Flatten(init), idx0);
        idx := idx0;
      }
    }
  }

  /** What each listed key contributes, position by position. */
  function Outcomes(top: map<string, Json>, keys: seq<string>, today: string): (outs: seq<Option<SolWeather>>)
    ensures |outs| == |keys|
    ensures forall i :: 0 <= i < |keys| ==> outs[i] == SolRecord(top, keys[i], today)
  {
    seq(|keys|, i requires 0 <= i < |keys| => SolRecord(top, keys[i], today))
  }

  lemma {:induction false} RecordsFlattenOutcomes(top: map<string, Json>, keys: seq<string>, today: string)
    ensures Records(top, keys, today) == Flatten(Outcomes(top, keys, today))
    decreases |keys|
  {
    if keys != [] {
      var outs := Outcomes(top, keys, today);
      var init := keys[..|keys| - 1];
      RecordsFlattenOutcomes(top, init, today);
      assert outs[..|outs| - 1] == Outcomes(top, init, today);
    }
  }

  /** `idx` maps the records, one to one and in increasing order, to the
      positions of `keys` that produce a record, and misses none of them. */
  ghost predicate SelectsUsableKeys(top: map<string, Json>, keys: seq<string>, today: string,
                                    rs: seq<SolWeather>, idx: seq<nat>)
  {
    Selects(Outcomes(top, keys, today), rs, idx)
  }

  /** The records are exactly the records of the usable keys, in key order:
      an in-order filter of the listed keys. */
  lemma RecordsSelectUsableKeys(top: map<string, Json>, keys: seq<string>, today: string)
      returns (idx: seq<nat>)
    ensures SelectsUsableKeys(top, keys, today, Records(top, keys, today), idx)
  {
    RecordsFlattenOutcomes(top, keys, today);
    idx := FlattenSelects(Outcomes(top, keys, today));
  }

  /** The decoder's records come from the first five listed keys, in their
      listed order, one per usable key; each record's `sol` is its key's
      `Int` value and its fields are built from that key's object. */
  lemma DecodeSelectsInOrder(data: Option<Json>, today: string) returns (idx: seq<nat>)
    requires ReadFeed(data).Some?
    ensures var feed := ReadFeed(data).value;
      SelectsUsableKeys(feed.top, FirstKeys(feed.solKeys), today, Decode(data, today), idx)
    ensures var feed := ReadFeed(data).value;
      forall w :: w in Decode(data, today) ==>
        exists i :: 0 <= i < |FirstKeys(feed.solKeys)| && ParseInt(feed.solKeys[i]) == Some(w.sol)
  {
    var feed := ReadFeed(data).value;
    var keys := FirstKeys(feed.solKeys);
    idx := RecordsSelectUsableKeys(feed.top, keys, today);
    forall w | w in Decode(data, today)
      ensures exists i :: 0 <= i < |keys| && ParseInt(feed.solKeys[i]) == Some(w.sol)
    {
      var j :| 0 <= j < |Decode(data, today)| && Decode(data, today)[j] == w;
      assert keys[idx[j]] == feed.solKeys[idx[j]];
    }
  }

  /** The result is non-empty exactly when the feed is well formed and one of
      its first five keys is usable. */
  lemma DecodeNonEmptyIff(data: Option<Json>, today: string)
    ensures Decode(data, today) != [] <==>
      ReadFeed(data).Some? &&
      exists i :: 0 <= i < |FirstKeys(ReadFeed(data).value.solKeys)| &&
        SolRecord(ReadFeed(data).value.top, FirstKeys(ReadFeed(data).value.solKeys)[i], today).Some?
  {
    if ReadFeed(data).Some? {
      var feed := ReadFeed(data).value;
      var keys := FirstKeys(feed.solKeys);
      var idx := RecordsSelectUsableKeys(feed.top, keys, today);
      if Decode(data, today) != [] {
        assert SolRecord(feed.top, keys[idx[0]], today).Some?;
      }
    }
  }

  /** When every one of the first five keys is usable, one record is made per
      key: with ten usable sols, five records. */
  lemma {:induction false} RecordsOfUsableKeys(top: map<string, Json>, keys: seq<string>, today: string)
    requires forall i :: 0 <= i < |keys| ==> SolRecord(top, keys[i], today).Some?
    ensures |Records(top, keys, today)| == |keys|
    decreases |keys|
  {
    if keys != [] {
      var init := keys[..|keys| - 1];
      assert forall i :: 0 <= i < |init| ==> init[i] == keys[i];
      RecordsOfUsableKeys(top, init, today);
    }
  }

  lemma DecodeAllUsable(data: Option<Json>, today: string)
    requires ReadFeed(data).Some?
    requires var feed := ReadFeed(data).value;
      forall i :: 0 <= i < |feed.solKeys| ==> SolRecord(feed.top, feed.solKeys[i], today).Some?
    ensures |Decode(data, today)| == if |ReadFeed(data).value.solKeys| < MaxSols
                                     then |ReadFeed(data).value.solKeys| else MaxSols
  {
    var feed := ReadFeed(data).value;
    var keys := FirstKeys(feed.solKeys);
    assert forall i :: 0 <= i < |keys| ==> keys[i] == feed.solKeys[i];
    RecordsOfUsableKeys(feed.top, keys, today);
  }

  /** Two top-level objects that differ at most in `sol_keys`, both arrays,
      produce the same record for every key. */
  lemma {:induction false} RecordsIgnoreSolKeysEntry(m1: map<string, Json>, m2: map<string, Json>,
                                                     keys: seq<string>, today: string)
    requires "sol_keys" in m1 && m1["sol_keys"].JArr?
    requires "sol_keys" in m2 && m2["sol_keys"].JArr?
    requires m1 - {"sol_keys"} == m2 - {"sol_keys"}
    ensures Records(m1, keys, today) == Records(m2, keys, today)
    decreases |keys|
  {
    if keys != [] {
      var k := keys[|keys| - 1];
      if k != "sol_keys" {
        assert k in m1 <==> k in m1 - {"sol_keys"};
        assert k in m2 <==> k in m2 - {"sol_keys"};
        assert k in m1 ==> m1[k] == (m1 - {"sol_keys"})[k];
        assert k in m2 ==> m2[k] == (m2 - {"sol_keys"})[k];
      }
      RecordsIgnoreSolKeysEntry(m1, m2, keys[..|keys| - 1], today);
    }
  }

  /** Only the first five listed keys are examined: keys from the sixth on
      never contribute, even in place of a skipped key among the five. */
  lemma DecodeIgnoresKeysAfterFifth(m1: map<string, Json>, m2: map<string, Json>, today: string)
    requires ReadFeed(Some(JObj(m1))).Some? && ReadFeed(Some(JObj(m2))).Some?
    requires m1 - {"sol_keys"} == m2 - {"sol_keys"}
    requires FirstKeys(ReadFeed(Some(JObj(m1))).value.solKeys) == FirstKeys(ReadFeed(Some(JObj(m2))).value.solKeys)
    ensures Decode(Some(JObj(m1)), today) == Decode(Some(JObj(m2)), today)
  {
    var keys := FirstKeys(ReadFeed(Some(JObj(m1))).value.solKeys);
    RecordsIgnoreSolKeysEntry(m1, m2, keys, today);
  }

  /** Every decoded record's minimum temperature lies below its maximum: 34 or
      35 below when `AT.av` is given, 71 below with the defaults. */
  lemma RecordTemperaturesOrdered(solData: map<string, Json>, sol: int, today: string)
    ensures var w := BuildRecord(solData, sol, today);
      w.minTemp < w.maxTemp &&
      (SensorAverage(solData, "AT").Some? ==> 34 <= w.maxTemp - w.minTemp <= 35)
  {
    BuildRecordFields(solData, sol, today);
    match SensorAverage(solData, "AT")
    case Some(av) =>
      TruncSpread(av);
      var w := BuildRecord(solData, sol, today);
      TruncatesToUnique(av, w.maxTemp, Trunc(av));
      TruncatesToUnique(av - MinTempOffset, w.minTemp, Trunc(av - 35.0));
    case None =>
  }

  lemma DecodeTemperaturesOrdered(data: Option<Json>, today: string)
    ensures forall w :: w in Decode(data, today) ==> w.minTemp < w.maxTemp
  {
    if ReadFeed(data).Some? {
      var feed := ReadFeed(data).value;
      var keys := FirstKeys(feed.solKeys);
      var idx := RecordsSelectUsableKeys(feed.top, keys, today);
      forall w | w in Decode(data, today)
        ensures w.minTemp < w.maxTemp
      {
        var j :| 0 <= j < |Decode(data, today)| && Decode(data, today)[j] == w;
        var key := keys[idx[j]];
        RecordTemperaturesOrdered(feed.top[key].fields, ParseInt(key).value, today);
      }
    }
  }

  // ---------------------------------------------------------------------
  // The decoder on the inputs of its unit tests

  /** The date of a timestamp is everything before its first `T`. */
  lemma ExtractDateBeforeT(date: string, rest: string, today: string)
    requires 'T' !in date
    ensures ExtractDate(date + ['T'] + rest, today) == date
  {
    FirstIndexAfter(date, 'T', rest);
    assert (date + ['T'] + rest)[..|date|] == date;
  }

  lemma ExtractDateExamples(today: string)
    ensures ExtractDate("2024-10-15T12:30:45Z", today) == "2024-10-15"
    ensures ExtractDate("", today) == today
  {
    ExtractDateBeforeT("2024-10-15", "12:30:45Z", today);
    assert "2024-10-15" + ['T'] + "12:30:45Z" == "2024-10-15T12:30:45Z";
  }

  /** The feed of the "valid structure" unit test: sol 4012 with readings, sol
      4011 without. */
  const TestSol4012: map<string, Json> := map[
    "First_UTC" := JStr("2024-10-15T00:00:00Z"),
    "Last_UTC" := JStr("2024-10-15T23:59:59Z"),
    "Season" := JStr("Month 6"),
    "AT" := JObj(map["av" := JNum(-18.5), "ct" := JNum(100.0)]),
    "PRE" := JObj(map["av" := JNum(750.2), "ct" := JNum(100.0)]),
    "HWS" := JObj(map["av" := JNum(12.3), "ct" := JNum(100.0)])]

  const TestSol4011: map<string, Json> := map[
    "First_UTC" := JStr("2024-10-14T00:00:00Z"),
    "Last_UTC" := JStr("2024-10-14T23:59:59Z"),
    "Season" := JStr("Month 6")]

  const TestFeed: map<string, Json> := map[
    "sol_keys" := JArr([JStr("4012"), JStr("4011")]),
    "4012" := JObj(TestSol4012),
    "4011" := JObj(TestSol4011)]

  lemma TestSol4012Readings()
    ensures SensorAverage(TestSol4012, "AT") == Some(-18.5)
    ensures SensorAverage(TestSol4012, "PRE") == Some(750.2)
    ensures SensorAverage(TestSol4012, "HWS") == Some(12.3)
    ensures StringAt(TestSol4012, "Season") == Some("Month 6")
    ensures FirstUTC(TestSol4012) == "2024-10-15T00:00:00Z"
  {
    assert TestSol4012["AT"] == JObj(map["av" := JNum(-18.5), "ct" := JNum(100.0)]);
    assert TestSol4012["PRE"] == JObj(map["av" := JNum(750.2), "ct" := JNum(100.0)]);
    assert TestSol4012["HWS"] == JObj(map["av" := JNum(12.3), "ct" := JNum(100.0)]);
  }

  lemma RecordOfTestSol4012(today: string)
    ensures BuildRecord(TestSol4012, 4012, today)
         == SolWeather(4012, "2024-10-15", -53, -18, 750, 12, "Month 6")
  {
    TestSol4012Readings();
    ExtractDateBeforeT("2024-10-15", "00:00:00Z", today);
    assert "2024-10-15" + ['T'] + "00:00:00Z" == "2024-10-15T00:00:00Z";
    TruncatesToUnique(-18.5, Trunc(-18.5), -18);
    TruncatesToUnique(-18.5 - MinTempOffset, Trunc(-18.5 - MinTempOffset), -53);
    TruncatesToUnique(750.2, Trunc(750.2), 750);
    TruncatesToUnique(12.3, Trunc(12.3), 12);
  }

  lemma TestSol4011Readings()
    ensures SensorAverage(TestSol4011, "AT").None?
    ensures SensorAverage(TestSol4011, "PRE").None?
    ensures SensorAverage(TestSol4011, "HWS").None?
    ensures StringAt(TestSol4011, "Season") == Some("Month 6")
    ensures FirstUTC(TestSol4011) == "2024-10-14T00:00:00Z"
  {
  }

  lemma RecordOfTestSol4011(today: string)
    ensures BuildRecord(TestSol4011, 4011, today)
         == SolWeather(4011, "2024-10-14", DefaultMinTemp, DefaultMaxTemp, DefaultPressure, DefaultWindSpeed, "Month 6")
  {
    TestSol4011Readings();
    ExtractDateBeforeT("2024-10-14", "00:00:00Z", today);
    assert "2024-10-14" + ['T'] + "00:00:00Z" == "2024-10-14T00:00:00Z";
  }

  lemma ReadTestFeed()
    ensures ReadFeed(Some(JObj(TestFeed))) == Some(Feed(TestFeed, ["4012", "4011"]))
  {
    var keys := ["4012", "4011"];
    StringArrayRoundTrip(keys);
    assert StringArray(keys) == JArr([JStr("4012"), JStr("4011")]);
  }

  lemma TestFeedSols(today: string)
    ensures SolRecord(TestFeed, "4012", today) == Some(BuildRecord(TestSol4012, 4012, today))
    ensures SolRecord(TestFeed, "4011", today) == Some(BuildRecord(TestSol4011, 4011, today))
  {
    ParseIntExamples();
    assert TestFeed["4012"] == JObj(TestSol4012) && TestFeed["4011"] == JObj(TestSol4011);
  }

  /** A feed listing two usable keys decodes to their two records, in order. */
  lemma DecodeTwoUsableKeys(top: map<string, Json>, k1: string, k2: string, today: string,
                            w1: SolWeather, w2: SolWeather)
    requires ReadFeed(Some(JObj(top))) == Some(Feed(top, [k1, k2]))
    requires SolRecord(top, k1, today) == Some(w1) && SolRecord(top, k2, today) == Some(w2)
    ensures Decode(Some(JObj(top)), today) == [w1, w2]
  {
    var keys := [k1, k2];
    assert FirstKeys(keys) == keys;
    assert keys[..1] == [k1] && [k1][..0] == [];
    assert Records(top, [k1], today) == Records(top, [], today) + [w1] == [w1];
    assert Records(top, keys, today) == Records(top, [k1], today) + [w2];
  }

  /** Decoding that feed gives sol 4012 first, with earth date 2024-10-15,
      season "Month 6", pressure 750 (from 750.2) and wind speed 12 (from
      12.3), then sol 4011 with the default readings. */
  lemma DecodeTestFeed(today: string)
    ensures Decode(Some(JObj(TestFeed)), today) == [
      SolWeather(4012, "2024-10-15", -53, -18, 750, 12, "Month 6"),
      SolWeather(4011, "2024-10-14", -89, -18, 750, 12, "Month 6")]
  {
    ReadTestFeed();
    TestFeedSols(today);
    RecordOfTestSol4012(today);
    RecordOfTestSol4011(today);
    DecodeTwoUsableKeys(TestFeed, "4012", "4011", today,
      SolWeather(4012, "2024-10-15", -53, -18, 750, 12, "Month 6"),
      SolWeather(4011, "2024-10-14", -89, -18, 750, 12, "Month 6"));
  }
}

# SpaceExplorer in Dafny

SpaceExplorer is a SwiftUI app with three screens: space pictures from
NASA's Astronomy Picture of the Day (APOD), Mars weather from the InSight
lander's feed, and a list of space launches. This project models the app's
logic and proves properties of the model:

- the InSight feed decoder `parseMarsWeatherData(from:)` and its date helper
  `extractDate(from:)`;
- the timestamp formatter `formatUTCTime(_:)` and its duplicate in the Mars
  screen;
- the load cycles of the Mars and home screens;
- the tolerant `Decodable` initialiser of `APODResponse` and its `imageURL`;
- the `SpacePicture` mapping;
- the launch status colour rule (both copies);
- the API key fallback;
- the hard-coded sample tables.

Layout (one module per source file, plus four support modules):

| file | module | models |
|---|---|---|
| `wrappers.dfy` | `Wrappers` | `Option` and `Result` |
| `json.dfy` | `Json` | the parsed JSON tree `JSONSerialization` produces, and the `as?` casts |
| `swift_strings.dfy` | `SwiftStrings` | `firstIndex(of:)`, `split(separator:)`, `contains` |
| `swift_numbers.dfy` | `SwiftNumbers` | `Int(Double)` (truncation toward zero) and `Int(String)` (64-bit) |
| `insight_service.dfy` | `InSight` | `parseMarsWeatherData(from:)` and `extractDate(from:)` |
| `mars_weather.dfy` | `MarsWeatherModel` | the Mars weather records, the convenience properties, `sampleData` |
| `observation_period.dfy` | `ObservationPeriod` | `formatUTCTime(_:)` |
| `mars_view.dfy` | `MarsScreen` | `MarsView`'s state, `loadMarsWeather`, its own `formatUTCTime` |
| `home_view.dfy` | `HomeScreen` | `HomeView`'s state and `loadAPODData` |
| `apod_response.dfy` | `APODModel` | `APODResponse`, `init(from:)`, `imageURL` |
| `space_picture.dfy` | `SpacePictureModel` | `SpacePicture`, `init(from:)`, `sampleData` |
| `space_launch.dfy` | `SpaceLaunchModel` | `SpaceLaunch` and `sampleData` |
| `space_launch_view.dfy` | `SpaceLaunchView` | `statusColor(for:)` and `launches` |
| `space_launch_header.dfy` | `SpaceLaunchHeader` | the header's copy of `statusColor(for:)` |
| `api_configuration.dfy` | `APIConfiguration` | `nasaAPIKey` |

### The decoder

The decoder is imperative, as in Swift.

- `InSight.ParseMarsWeatherData` runs the `for` loop over the first five
  listed keys and appends records.
- `InSight.ReadSol` reassigns its reading variables one by one.
- `ParseMarsWeatherData` is proved equal to the specification function
  `InSight.Decode`, and `ReadSol` to the per-sol function
  `InSight.BuildRecord`. `Decode` is built from `Records`, a recursion from
  the back, the way the loop appends.
- The properties are lemmas about `Decode`: the empty result on a malformed
  feed, the bound of five, the in-order filter, the skip rule, the per-field
  defaults, and the ordering of the two temperatures.

### Choices the code forces

- **The decoder's output record.** The decoder calls a seven-argument
  `MarsWeather` initialiser that `MarsWeather.swift` does not declare, so
  the code does not compile as written. The model gives the decoder its own
  record, `InSight.SolWeather`, holding exactly the seven values it
  computes. The Mars screen's list holds `MarsScreen.WeatherRow`: either a
  sample `MarsWeather` or a decoded `SolWeather`.
- **The decoder fills far less than `MarsWeather` holds.** `MarsWeather`
  (MarsWeather.swift:41-62) carries temperature, pressure and wind-speed
  aggregates (average, minimum, maximum, count), an optional wind direction,
  three season strings, a month ordinal and both UTC timestamps.
  `parseMarsWeatherData` computes only the seven values above, with the
  defaults -89, -18, 750, 12 and "Unknown", and the model follows it.
- **Inputs are parameters.** "Today", the environment map and the fetch
  results are all passed in.

## Model

| member | source | states |
|---|---|---|
| Json.AsDouble | SpaceExplorer/Services/InSightService.swift:97 | `as? Double` succeeds exactly on JSON numbers and booleans, and gives a number's own value |
| Json.AsStringArray | SpaceExplorer/Services/InSightService.swift:85 | `as? [String]` succeeds exactly on arrays whose every element is a string, and returns those strings in order |
| Json.StringArrayRoundTrip | SpaceExplorer/Services/InSightService.swift:85 | reading back a JSON array of strings gives exactly the strings it was built from |
| Json.ObjectAt | SpaceExplorer/Services/InSightService.swift:90 | `json[key] as? [String: Any]` is present exactly when the key exists and holds an object |
| Json.StringAt | SpaceExplorer/Services/InSightService.swift:117-118 | `solData[key] as? String` is present exactly when the key exists and holds a string |
| SwiftStrings.FirstIndex | SpaceExplorer/Services/InSightService.swift:146 | `firstIndex(of:)` is nil exactly when the character is absent; otherwise it is an index holding the character with none before it |
| SwiftStrings.FirstIndexAfter | SpaceExplorer/Services/InSightService.swift:146-147 | in `x + [c] + y` with no `c` in `x`, the first `c` is at `\|x\|` |
| SwiftStrings.Split | SpaceExplorer/Views/MarsWeatherObservationPeriodSection.swift:28 | `split(separator:)` yields non-empty, separator-free pieces that join back to the text with the separators removed |
| SwiftStrings.SplitPiece | SpaceExplorer/Views/MarsWeatherObservationPeriodSection.swift:28 | a non-empty text without the separator is one piece, itself |
| SwiftStrings.SplitAtSeparator | SpaceExplorer/Views/MarsWeatherObservationPeriodSection.swift:28 | pieces break exactly at separators: `x + [sep] + y` with no separator in `x` gives `x` (left out when empty), then the pieces of `y`; with `SplitPiece` and the empty text this fixes `split` on every input |
| SwiftStrings.SplitSkipsSeparators | SpaceExplorer/Views/MarsWeatherObservationPeriodSection.swift:28 | leading separators produce no pieces: empty pieces are omitted |
| SwiftStrings.SplitFirstTwoPieces | SpaceExplorer/Views/MarsWeatherObservationPeriodSection.swift:28-30 | for `lead a gap b rest`, with `lead` and `gap` runs of separators (`gap` non-empty), `a` and `b` non-empty and separator-free, and `rest` empty or starting with a separator, the first two pieces are `a` and `b` |
| SwiftNumbers.Trunc | SpaceExplorer/Models/MarsWeather.swift:65-69 | `Int(Double)` drops the fractional part toward zero |
| SwiftNumbers.TruncatesToUnique | SpaceExplorer/Models/MarsWeather.swift:65-69 | truncation toward zero has exactly one answer |
| SwiftNumbers.TruncSpread | SpaceExplorer/Services/InSightService.swift:98-99 | `Int(av)` and `Int(av - 35)` are 34 or 35 apart for every `av` |
| SwiftNumbers.ParseInt | SpaceExplorer/Services/InSightService.swift:91 | `Int(String)` succeeds exactly on an optional sign followed by one or more ASCII digits whose value fits in 64 bits, and gives that value |
| SwiftNumbers.ParseShowInt | SpaceExplorer/Services/InSightService.swift:91 | parsing the decimal rendering of any integer gives it back if it fits in 64 bits, and nil otherwise |
| SwiftNumbers.DigitsValueOfShowNat | SpaceExplorer/Services/InSightService.swift:91 | the digits of a natural number read back as that number |
| SwiftNumbers.ParseIntExamples | SpaceExplorer/Services/InSightService.swift:91 | "4012", "4011", "+7" and "-42" parse; "", "-" and "12a" do not |
| MarsWeatherModel.MinTemp | SpaceExplorer/Models/MarsWeather.swift:65 | `minTemp` is the minimum temperature truncated toward zero |
| MarsWeatherModel.MaxTemp | SpaceExplorer/Models/MarsWeather.swift:66 | `maxTemp` is the maximum temperature truncated toward zero |
| MarsWeatherModel.AverageTemp | SpaceExplorer/Models/MarsWeather.swift:67 | `averageTemp` is the average temperature truncated toward zero |
| MarsWeatherModel.AveragePressure | SpaceExplorer/Models/MarsWeather.swift:68 | `averagePressure` is the average pressure truncated toward zero |
| MarsWeatherModel.AverageWindSpeed | SpaceExplorer/Models/MarsWeather.swift:69 | `averageWindSpeed` is the average wind speed truncated toward zero |
| MarsWeatherModel.SampleDataShape | SpaceExplorer/Models/MarsWeather.swift:74-160 | five sample sols, 4012 down to 4008, strictly descending |
| MarsWeatherModel.SampleTemperaturesOrdered | SpaceExplorer/Models/MarsWeather.swift:74-160 | in every sample sol the minimum temperature is below the maximum, as reals and as truncated integers |
| MarsWeatherModel.SampleSeasonsComplete | SpaceExplorer/Models/MarsWeather.swift:74-160 | every sample sol has a month ordinal in 1..12 and three non-empty season strings |
| MarsWeatherModel.SampleWindDirections | SpaceExplorer/Models/MarsWeather.swift:74-160 | every sample sol has a wind direction, and its most common point lies in [0, 360) degrees, has a non-empty compass point and a positive count |
| MarsWeatherModel.SampleCountsPositive | SpaceExplorer/Models/MarsWeather.swift:74-160 | every sample's temperature, pressure and wind-speed aggregates have a positive sample count |
| MarsWeatherModel.SampleReadingsRealistic | SpaceExplorer/Models/MarsWeather.swift:74-160 | sample minimum temperatures are at least -125 and maximum temperatures at most 20, as reals and as the truncated `minTemp`/`maxTemp`; pressure averages lie in [400, 870], wind averages in [0, 60], and the date strings are non-empty |
| MarsWeatherModel.SampleConvenienceViews | SpaceExplorer/Models/MarsWeather.swift:65-69 | on sol 4012 the convenience properties are -96, -15, -62, 750 and 7 |
| InSight.ReadFeed | SpaceExplorer/Services/InSightService.swift:84-85 | the feed passes exactly when the input is JSON, the top level is an object and `sol_keys` is an array of strings |
| InSight.FirstKeys | SpaceExplorer/Services/InSightService.swift:89 | `prefix(5)`: the first five keys, or all of them when there are fewer |
| InSight.ExtractDate | SpaceExplorer/Services/InSightService.swift:144-154 | the text before the first `T` when there is one, otherwise today's date |
| InSight.SensorAverage | SpaceExplorer/Services/InSightService.swift:96-97 | a sensor's average is present exactly when the sensor's key holds an object whose `av` is a number or a boolean (so a missing sensor, a non-object, a missing `av` or a non-numeric `av` gives none and the reading falls back to its default); a numeric `av` is read as it is |
| InSight.SolRecord | SpaceExplorer/Services/InSightService.swift:90-91 | a listed key yields a record exactly when its value is an object and its text parses as an `Int`, and the record's `sol` is that `Int` |
| InSight.BuildRecordFields | SpaceExplorer/Services/InSightService.swift:93-119 | each reading falls back to its own default independently (-89/-18, 750, 12, "Unknown", ""); a given average is truncated toward zero, with the minimum taken 35 below it |
| InSight.Decode | SpaceExplorer/Services/InSightService.swift:83-141 | never more than five records, and none on a structural failure |
| InSight.ReadSol | SpaceExplorer/Services/InSightService.swift:93-129 | the per-sol reassignments compute the specified record |
| InSight.ParseMarsWeatherData | SpaceExplorer/Services/InSightService.swift:78-142 | the loop over `solKeys.prefix(5)` returns exactly `Decode` of its input |
| InSight.MalformedFeedDecodesEmpty | SpaceExplorer/Services/InSightService.swift:136-141 | unparseable input, a non-object top level, a missing `sol_keys`, or a `sol_keys` that is not all strings gives the empty list |
| InSight.FlattenSelects | SpaceExplorer/Services/InSightService.swift:89-131 | keeping the present values of a sequence selects every present position once, in increasing order |
| InSight.RecordsFlattenOutcomes | SpaceExplorer/Services/InSightService.swift:89-131 | the appended records are the present per-key outcomes, in key order |
| InSight.RecordsSelectUsableKeys | SpaceExplorer/Services/InSightService.swift:89-131 | the records are an in-order filter of the keys: each comes from a usable key, and every usable key yields one |
| InSight.DecodeSelectsInOrder | SpaceExplorer/Services/InSightService.swift:89-130 | the output comes from `sol_keys.prefix(5)` in listing order, and each record's `sol` is `Int` of a listed key |
| InSight.DecodeNonEmptyIff | SpaceExplorer/Services/InSightService.swift:89-134 | the output is non-empty exactly when the feed is well formed and one of its first five keys is usable |
| InSight.RecordsOfUsableKeys | SpaceExplorer/Services/InSightService.swift:89-131 | when every key is usable, one record is made per key |
| InSight.DecodeAllUsable | SpaceExplorer/Services/InSightService.swift:89 | with all keys usable, the output has five records, or fewer when fewer keys are listed |
| InSight.RecordsIgnoreSolKeysEntry | SpaceExplorer/Services/InSightService.swift:90 | the `sol_keys` entry itself never changes a record |
| InSight.DecodeIgnoresKeysAfterFifth | SpaceExplorer/Services/InSightService.swift:89 | feeds that agree on their first five listed keys and on every sol object decode alike, so a sixth key never replaces a skipped one |
| InSight.RecordTemperaturesOrdered | SpaceExplorer/Services/InSightService.swift:94-100 | every record's minimum temperature is below its maximum, by 34 or 35 when `AT.av` is given |
| InSight.DecodeTemperaturesOrdered | SpaceExplorer/Services/InSightService.swift:94-100 | every decoded record has its minimum temperature below its maximum |
| InSight.ExtractDateBeforeT | SpaceExplorer/Services/InSightService.swift:146-147 | a timestamp's date is everything before its first `T` |
| InSight.ExtractDateExamples | SpaceExplorerTests/InSightServiceTests.swift:74-95 | "2024-10-15T12:30:45Z" gives "2024-10-15"; the empty text gives today's date |
| InSight.RecordOfTestSol4012 | SpaceExplorerTests/InSightServiceTests.swift:33-49 | the test's sol 4012 gives earth date 2024-10-15, temperatures -53/-18, pressure 750, wind speed 12 and season "Month 6" |
| InSight.RecordOfTestSol4011 | SpaceExplorerTests/InSightServiceTests.swift:50-54 | the test's sol 4011, which has no readings, gets every default |
| InSight.DecodeTwoUsableKeys | SpaceExplorer/Services/InSightService.swift:89-134 | a feed listing two usable keys decodes to their two records, in listing order |
| InSight.DecodeTestFeed | SpaceExplorerTests/InSightServiceTests.swift:28-71 | the test feed decodes to sol 4012, then sol 4011, with the values the test expects |
| ObservationPeriod.TimeText | SpaceExplorer/Views/MarsWeatherObservationPeriodSection.swift:27 | the time text contains no `Z` |
| ObservationPeriod.TimeTextBetween | SpaceExplorer/Views/MarsWeatherObservationPeriodSection.swift:25-27 | the timestamp is its part up to and including the first `T`, then the time text, then its part from the first `Z` on |
| ObservationPeriod.FormatUTCTime | SpaceExplorer/Views/MarsWeatherObservationPeriodSection.swift:24-34 | unchanged without a `T` or a `Z`, and unchanged when the time text has fewer than two pieces; with two or more pieces it is the first piece, `:`, the second piece and " UTC"; it requires the first `Z` after the first `T` |
| ObservationPeriod.SplitOnlySeparators | SpaceExplorer/Views/MarsWeatherObservationPeriodSection.swift:28 | a text made only of colons splits into no pieces |
| ObservationPeriod.FormatHourMinute | SpaceExplorer/Views/MarsWeatherObservationPeriodSection.swift:25-31 | `date T lead hh gap mm rest Z tail` is shown as `hh:mm UTC` for any runs of colons `lead` and `gap` (`gap` non-empty) and any `rest` that is empty or starts with a colon: seconds and tail are dropped, and with or without seconds, leading or doubled colons give the same result |
| ObservationPeriod.FormatUTCTimeExample | SpaceExplorer/Views/MarsView.swift:89 | "2020-10-19T18:32:20Z" is shown as "18:32 UTC" |
| ObservationPeriod.FormatBareDate | SpaceExplorer/Views/MarsWeatherObservationPeriodSection.swift:25-33 | a date without a `T` is shown unchanged |
| ObservationPeriod.FormatOnlyColons | SpaceExplorer/Views/MarsWeatherObservationPeriodSection.swift:28-33 | a time text made only of colons leaves the timestamp unchanged |
| MarsScreen.SampleRows | SpaceExplorer/Views/MarsView.swift:4 | the initial rows are the sample sols, in order |
| MarsScreen.FeedRows | SpaceExplorer/Views/MarsView.swift:76 | the decoded records become rows, in order |
| MarsScreen.MarsView.constructor | SpaceExplorer/Views/MarsView.swift:4-6 | the screen starts with the sample sols, not loading, and with no note |
| MarsScreen.MarsView.BeginLoad | SpaceExplorer/Views/MarsView.swift:65-66 | starting a load sets the loading flag and clears the note, keeping the list |
| MarsScreen.MarsView.CompleteLoad | SpaceExplorer/Views/MarsView.swift:68-84 | the loading flag is cleared; a non-empty decode replaces the list and leaves the note alone; an empty decode or a failed fetch keeps the list and sets the "InSight mission ended" note; the list always has one to five rows |
| MarsScreen.MarsView.LoadMarsWeather | SpaceExplorer/Views/MarsView.swift:64-86 | a whole load shows the decoded sols with no note, or keeps the list and shows the note |
| MarsScreen.FormatUTCTime | SpaceExplorer/Views/MarsView.swift:88-99 | the screen's copy leaves a timestamp without a `T` or a `Z` unchanged |
| MarsScreen.FormatUTCTimeAgrees | SpaceExplorer/Views/MarsView.swift:88-99 | the screen's copy agrees with the section's copy on every timestamp |
| MarsScreen.FormatUTCTimeExample | SpaceExplorer/Views/MarsView.swift:89 | the screen's copy shows "2020-10-19T18:32:20Z" as "18:32 UTC" |
| HomeScreen.Pictures | SpaceExplorer/Views/HomeView.swift:59 | the pictures are the entries mapped through `SpacePicture(from:)`, with the same length and order |
| HomeScreen.PicturesKeepOrder | SpaceExplorer/Views/HomeView.swift:59 | picture `i` has entry `i`'s title, date and explanation, and every picture has the API image |
| HomeScreen.HomeView.constructor | SpaceExplorer/Views/HomeView.swift:4-6 | the screen starts with the sample pictures, not loading, and with no error |
| HomeScreen.HomeView.BeginLoad | SpaceExplorer/Views/HomeView.swift:50-51 | starting a load sets the loading flag and clears the error, keeping the list |
| HomeScreen.HomeView.CompleteLoad | SpaceExplorer/Views/HomeView.swift:53-65 | the loading flag is cleared; success replaces the list with the mapped pictures; failure keeps the list and shows the error's text |
| HomeScreen.HomeView.LoadAPODData | SpaceExplorer/Views/HomeView.swift:49-67 | a whole load shows the fetched pictures with no error, or keeps the list and shows the error |
| APODModel.MediaTypeFromRaw | SpaceExplorer/Models/APODResponse.swift:12-16 | `MediaType(rawValue:)` accepts exactly "image", "video" and "other", and gives the case with that raw value |
| APODModel.MediaTypeRawRoundTrip | SpaceExplorer/Models/APODResponse.swift:12-16 | every case is recovered from its raw value |
| APODModel.DecodeString | SpaceExplorer/Models/APODResponse.swift:28 | `decode(String.self, forKey:)` succeeds exactly on a string, and reports an absent key as key-not-found and `null` as value-not-found |
| APODModel.DecodeStringIfPresent | SpaceExplorer/Models/APODResponse.swift:30 | `decodeIfPresent` gives nil for an absent key or `null`, the string for a string, and fails on anything else |
| APODModel.MediaTypeOf | SpaceExplorer/Models/APODResponse.swift:35-40 | a media type other than `.other` is read only from that case's raw value at `media_type` |
| APODModel.ImageURL | SpaceExplorer/Models/APODResponse.swift:44-47 | `hdurl` when present, otherwise `url`; nil exactly when both are absent |
| APODModel.DecodeAPODSucceedsIff | SpaceExplorer/Models/APODResponse.swift:26-41 | decoding succeeds exactly on an object with string date, explanation and title and with each optional key absent, `null` or a string; success copies each string, and an absent or `null` optional key becomes nil |
| APODModel.MissingRequiredFails | SpaceExplorer/Models/APODResponse.swift:28-32 | a missing date, explanation or title makes decoding fail; a missing date is reported as its key not found |
| APODModel.MediaTypeNeverFails | SpaceExplorer/Models/APODResponse.swift:35-40 | the `media_type` entry affects neither success nor any other field |
| APODModel.MediaTypeFallback | SpaceExplorer/Models/APODResponse.swift:35-40 | "image" and "video" give their cases; a missing, non-string or unrecognised media type gives `.other` |
| APODModel.PutIfPresent | SpaceExplorer/Models/APODResponse.swift:6-10 | an optional field is written only when it is not nil, and nothing else changes |
| APODModel.Encode | SpaceExplorer/Models/APODResponse.swift:3-23 | the encoded response is a JSON object |
| APODModel.DecodeEncodeRoundTrip | SpaceExplorer/Models/APODResponse.swift:3-41 | decoding an encoded response gives it back |
| SpacePictureModel.FromAPOD | SpaceExplorer/Models/SpacePicture.swift:19-24 | the picture has the entry's title and date, its explanation as description, and the image "photo" |
| SpacePictureModel.FromAPODIgnoresLinks | SpaceExplorer/Models/SpacePicture.swift:19-24 | entries that agree on title, explanation and date give the same picture |
| SpacePictureModel.PictureOfDecodedEntry | SpaceExplorer/Models/SpacePicture.swift:19-24 | the picture of a decoded JSON entry carries that entry's title, explanation and date |
| SpacePictureModel.SampleDataComplete | SpaceExplorer/Models/SpacePicture.swift:29-60 | five sample pictures, with all string fields non-empty |
| SpacePictureModel.SampleDataImages | SpaceExplorer/Models/SpacePicture.swift:29-60 | "Andromeda Galaxy" has image "star.fill" and "Eagle Nebula" has "sparkles"; "Hubble Deep Field", "Jupiter's Great Red Spot" and "Saturn's Rings" follow; no sample uses the API image |
| SpaceLaunchModel.AgenciesOf | SpaceExplorer/Models/SpaceLaunch.swift:15-64 | an agency is in the agency set exactly when some launch is flown by it |
| SpaceLaunchModel.SampleDataShape | SpaceExplorer/Models/SpaceLaunch.swift:15-64 | six launches, each "Scheduled" or "Launched", with all string fields non-empty and more than one mission type |
| SpaceLaunchModel.SampleNamedMissions | SpaceExplorer/Models/SpaceLaunch.swift:24-47 | Artemis II is NASA's and scheduled; Chandrayaan-3 is ISRO's and launched |
| SpaceLaunchModel.SampleAgencies | SpaceExplorer/Models/SpaceLaunch.swift:15-64 | the launches are flown by exactly five agencies: SpaceX, NASA, ESA, ISRO and Blue Origin |
| SpaceLaunchModel.SampleLocations | SpaceExplorer/Models/SpaceLaunch.swift:15-64 | every location contains "," or "Centre" |
| SpaceLaunchView.StatusColor | SpaceExplorer/Views/SpaceLaunchView.swift:65-74 | blue exactly for "Scheduled", green exactly for "Launched", and gray for every other status |
| SpaceLaunchView.LaunchBadges | SpaceExplorer/Views/SpaceLaunchView.swift:4 | the screen lists the six sample launches; each gets blue or green, never gray |
| SpaceLaunchHeader.StatusColor | SpaceExplorer/Views/SpaceLaunchHeaderSection.swift:19-28 | blue exactly for "Scheduled", green exactly for "Launched", and gray otherwise |
| SpaceLaunchHeader.AgreesWithLaunchView | SpaceExplorer/Views/SpaceLaunchHeaderSection.swift:19-28 | the header's copy agrees with the list's copy on every status |
| APIConfiguration.NasaAPIKey | SpaceExplorer/Services/APIConfiguration.swift:4-11 | a set, non-empty `NASA_API_KEY` is returned unchanged; otherwise "DEMO_KEY"; never empty |
| APIConfiguration.NasaAPIKeyOnlyReadsItsVariable | SpaceExplorer/Services/APIConfiguration.swift:6 | environments that agree on `NASA_API_KEY` give the same key |
| APIConfiguration.SettingTheKey | SpaceExplorer/Services/APIConfiguration.swift:6-10 | setting a non-empty key selects it; setting the empty string is the same as leaving it unset |

## Left out

- Network fetches are parameters, not modelled.
  - `InSightService.fetchMarsWeather` and all of `APODService.swift` are URLSession I/O.
  - Each completion handler receives the fetch's outcome as a parameter.
  - `HomeView` receives the decoded entry list, or the error's `localizedDescription`.
  - The conflicting `APODResponse` declared in `APODService.swift` is not part of this model.
- JSON byte parsing by `JSONSerialization` and `JSONDecoder` is not modelled. The decoder starts from a parsed `Json` tree. Bytes that are not JSON are the input `None`.
- Numbers from the feed:
  - Doubles are reals, so the model has no floating-point rounding.
  - `InSight.ReadSol`: does not model Swift's trap when `Int(av)` is given a value outside 64 bits, or NaN.
  - Every `MarsWeatherModel` convenience property has the same gap.
  - Foundation's NSNumber bridging of huge integers to `Double` is not modelled.
- The clock is a parameter: `extractDate`'s fallback to the current date is `today`.
- Async dispatch is not modelled. `DispatchQueue.main.async`, and overlapping loads that race, are out of scope. Each completion is one atomic transition.
- `print` calls are not modelled.
- `UUID()` identifiers are not modelled. They are random, so the record types carry no `id`.
- `APODModel.ImageURL`: returns the chosen string. It does not model `URL(string:)`, which can still give nil for a malformed string.
- `ObservationPeriod.FormatUTCTime`: the Swift trap when the first `Z` precedes the first `T` is the precondition `ZAfterT`. The model has no crashing path.
- `MarsScreen.FormatUTCTime`: its contract states only the missing-`T`-or-`Z` rule. The rest of its behaviour is stated through `MarsScreen.FormatUTCTimeAgrees`.
- Characters are not Unicode-aware. A Swift `Character` (a grapheme cluster) is one Dafny `char`, and `contains`, `split` and `firstIndex` work on those.
- `ProcessInfo` is not modelled. The environment is a map from names to values.
- SwiftUI `body` layouts, previews and the remaining section views are not modelled. They are rendering only.
- `String(format:)` and `.capitalized` are not modelled.
- The UI test target is not modelled.
- `SpacePicture`'s memberwise initialiser is the datatype constructor, which stores its four arguments as given. It has no separate member.

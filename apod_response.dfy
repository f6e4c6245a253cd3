/** `APODResponse`, one Astronomy Picture of the Day entry, and its tolerant
    `Decodable` initialiser: three required strings, three optional strings,
    and a media type that falls back to `.other` instead of failing.

    Decoding reads a JSON object through a keyed container. As in
    Foundation's `JSONDecoder`, `decode(String.self, forKey:)` fails on an
    absent key, on `null` and on a non-string, while
    `decodeIfPresent(String.self, forKey:)` gives nil for an absent key or
    `null` and fails only on a present non-string. */
module APODModel {
  import opened Wrappers
  import opened Json

  datatype MediaType = Image | Video | Other

  datatype APODResponse = APODResponse(
    date: string,
    explanation: string,
    hdurl: Option<string>,
    mediaType: MediaType,
    serviceVersion: Option<string>,
    title: string,
    url: Option<string>)

  /** Why decoding stopped, with the coding key it stopped at. */
  datatype DecodingError =
    | NotAnObject
    | KeyNotFound(key: string)
    | ValueNotFound(key: string)
    | TypeMismatch(key: string)

  /** The JSON names of the coding keys. */
  const DateKey: string := "date"
  const ExplanationKey: string := "explanation"
  const HdurlKey: string := "hdurl"
  const MediaTypeKey: string := "media_type"
  const ServiceVersionKey: string := "service_version"
  const TitleKey: string := "title"
  const UrlKey: string := "url"

  /** The raw value of each media type case. */
  function RawValue(m: MediaType): string {
    match m
    case Image => "image"
    case Video => "video"
    case Other => "other"
  }

  /** `MediaType(rawValue:)`: the case whose raw value is exactly `raw`. */
  function MediaTypeFromRaw(raw: string): (m: Option<MediaType>)
    ensures m.Some? <==> raw == "image" || raw == "video" || raw == "other"
    ensures m.Some? ==> RawValue(m.value) == raw
  {
    if raw == "image" then Some(Image)
    else if raw == "video" then Some(Video)
    else if raw == "other" then Some(Other)
    else None
  }

  lemma MediaTypeRawRoundTrip(m: MediaType)
    ensures MediaTypeFromRaw(RawValue(m)) == Some(m)
  {
  }

  /** `c.decode(String.self, forKey: key)`. */
  function DecodeString(c: map<string, Json>, key: string): (r: Result<string, DecodingError>)
    ensures r.Success? <==> key in c && c[key].JStr?
    ensures r.Success? ==> c[key] == JStr(r.value)
    ensures key !in c ==> r == Failure(KeyNotFound(key))
    ensures key in c && c[key].JNull? ==> r == Failure(ValueNotFound(key))
  {
    if key !in c then Failure(KeyNotFound(key))
    else match c[key]
      case JStr(s) => Success(s)
      case JNull => Failure(ValueNotFound(key))
      case _ => Failure(TypeMismatch(key))
  }

  /** `c.decodeIfPresent(String.self, forKey: key)`. */
  function DecodeStringIfPresent(c: map<string, Json>, key: string): (r: Result<Option<string>, DecodingError>)
    ensures r.Success? <==> key !in c || c[key].JNull? || c[key].JStr?
    ensures r.Success? && key in c && c[key].JStr? ==> r.value == Some(c[key].s)
    ensures r.Success? && (key !in c || c[key].JNull?) ==> r.value == None
  {
    if key !in c then Success(None)
    else match c[key]
      case JStr(s) => Success(Some(s))
      case JNull => Success(None)
      case _ => Failure(TypeMismatch(key))
  }

  /** `try? c.decode(String.self, forKey: .mediaType)` followed by
      `MediaType(rawValue:)`, with `.other` when either gives nil. */
  function MediaTypeOf(c: map<string, Json>): (m: MediaType)
    ensures m != Other ==> MediaTypeKey in c && c[MediaTypeKey] == JStr(RawValue(m))
  {
    match DecodeString(c, MediaTypeKey)
    case Success(raw) => MediaTypeFromRaw(raw).GetOr(Other)
    case Failure(_) => Other
  }

  /** `init(from:)`: the keys are read in the order date, explanation, hdurl,
      service_version, title, url, and the first failure is the result. */
  function DecodeAPOD(j: Json): Result<APODResponse, DecodingError> {
    var c :- if j.JObj? then Success(j.fields) else Failure(NotAnObject);
    var date :- DecodeString(c, DateKey);
    var explanation :- DecodeString(c, ExplanationKey);
    var hdurl :- DecodeStringIfPresent(c, HdurlKey);
    var serviceVersion :- DecodeStringIfPresent(c, ServiceVersionKey);
    var title :- DecodeString(c, TitleKey);
    var url :- DecodeStringIfPresent(c, UrlKey);
    Success(APODResponse(date, explanation, hdurl, MediaTypeOf(c), serviceVersion, title, url))
  }

  /** `imageURL`: `hdurl` when present, otherwise `url`. */
  function ImageURL(r: APODResponse): (u: Option<string>)
    ensures u.None? <==> r.hdurl.None? && r.url.None?
    ensures r.hdurl.Some? ==> u == r.hdurl
    ensures r.hdurl.None? ==> u == r.url
  {
    if r.hdurl.Some? then r.hdurl else r.url
  }

  // ---------------------------------------------------------------------
  // Properties of the decoder

  predicate RequiredString(c: map<string, Json>, key: string) {
    key in c && c[key].JStr?
  }

  predicate OptionalString(c: map<string, Json>, key: string) {
    key !in c || c[key].JNull? || c[key].JStr?
  }

  /** The value of an optional string key: nil when absent or `null`. */
  function OptionalValue(c: map<string, Json>, key: string): Option<string> {
    if key in c && c[key].JStr? then Some(c[key].s) else None
  }

  /** Decoding succeeds exactly when the input is an object whose date,
      explanation and title are strings and whose hdurl, service_version and
      url are each absent, `null` or a string. The media type plays no part.
      A successful decode copies every string and gives nil for an absent or
      `null` optional key. */
  lemma DecodeAPODSucceedsIff(j: Json)
    ensures DecodeAPOD(j).Success? <==>
      j.JObj? && RequiredString(j.fields, DateKey) && RequiredString(j.fields, ExplanationKey)
      && RequiredString(j.fields, TitleKey) && OptionalString(j.fields, HdurlKey)
      && OptionalString(j.fields, ServiceVersionKey) && OptionalString(j.fields, UrlKey)
    ensures DecodeAPOD(j).Success? ==>
      var c := j.fields;
      DecodeAPOD(j).value == APODResponse(
        c[DateKey].s, c[ExplanationKey].s, OptionalValue(c, HdurlKey), MediaTypeOf(c),
        OptionalValue(c, ServiceVersionKey), c[TitleKey].s, OptionalValue(c, UrlKey))
  {
  }

  /** A missing required key makes decoding fail; a missing date is reported
      as such. */
  lemma MissingRequiredFails(c: map<string, Json>)
    requires DateKey !in c || ExplanationKey !in c || TitleKey !in c
    ensures DecodeAPOD(JObj(c)).Failure?
    ensures DateKey !in c ==> DecodeAPOD(JObj(c)) == Failure(KeyNotFound(DateKey))
  {
    DecodeAPODSucceedsIff(JObj(c));
  }

  /** The media type never makes decoding fail: replacing or removing the
      `media_type` entry changes neither whether decoding succeeds nor any
      other field. */
  lemma MediaTypeNeverFails(c1: map<string, Json>, c2: map<string, Json>)
    requires c1 - {MediaTypeKey} == c2 - {MediaTypeKey}
    ensures DecodeAPOD(JObj(c1)).Success? <==> DecodeAPOD(JObj(c2)).Success?
    ensures DecodeAPOD(JObj(c1)).Success? ==>
      DecodeAPOD(JObj(c1)).value.(mediaType := Other) == DecodeAPOD(JObj(c2)).value.(mediaType := Other)
  {
    forall k | k != MediaTypeKey
      ensures (k in c1 <==> k in c2) && (k in c1 ==> c1[k] == c2[k])
    {
      assert k in c1 <==> k in c1 - {MediaTypeKey};
      assert k in c2 <==> k in c2 - {MediaTypeKey};
      assert k in c1 ==> c1[k] == (c1 - {MediaTypeKey})[k];
      assert k in c2 ==> c2[k] == (c2 - {MediaTypeKey})[k];
    }
    DecodeAPODSucceedsIff(JObj(c1));
    DecodeAPODSucceedsIff(JObj(c2));
  }

  /** The media type is the case named by a string `media_type` when there is
      one, and `.other` for a missing, non-string or unrecognised value. */
  lemma MediaTypeFallback(c: map<string, Json>)
    ensures MediaTypeOf(c) == Image <==> MediaTypeKey in c && c[MediaTypeKey] == JStr("image")
    ensures MediaTypeOf(c) == Video <==> MediaTypeKey in c && c[MediaTypeKey] == JStr("video")
    ensures MediaTypeOf(c) == Other <==>
      !(MediaTypeKey in c && c[MediaTypeKey].JStr? && (c[MediaTypeKey].s == "image" || c[MediaTypeKey].s == "video"))
  {
  }

  /** The encoded form of a response, as the synthesised `Encodable`
      conformance writes it: nil optionals are left out and the media type
      is written as its raw value. */
  function Encode(r: APODResponse): (j: Json)
    ensures j.JObj?
  {
    var required := map[
      DateKey := JStr(r.date),
      ExplanationKey := JStr(r.explanation),
      MediaTypeKey := JStr(RawValue(r.mediaType)),
      TitleKey := JStr(r.title)];
    JObj(PutIfPresent(PutIfPresent(PutIfPresent(required, HdurlKey, r.hdurl), ServiceVersionKey, r.serviceVersion),
                      UrlKey, r.url))
  }

  /** `encodeIfPresent`: the entry is written only for a non-nil value. */
  function PutIfPresent(m: map<string, Json>, key: string, v: Option<string>): (m': map<string, Json>)
    ensures key in m' <==> v.Some? || key in m
    ensures v.Some? ==> m'[key] == JStr(v.value)
    ensures forall k :: k != key ==> (k in m' <==> k in m) && (k in m ==> m'[k] == m[k])
  {
    if v.Some? then m[key := JStr(v.value)] else m
  }

  /** Decoding what was encoded gives the response back. */
  lemma DecodeEncodeRoundTrip(r: APODResponse)
    ensures DecodeAPOD(Encode(r)) == Success(r)
  {
    var c := Encode(r).fields;
    assert c[DateKey] == JStr(r.date) && c[ExplanationKey] == JStr(r.explanation);
    assert c[TitleKey] == JStr(r.title) && c[MediaTypeKey] == JStr(RawValue(r.mediaType));
    assert OptionalValue(c, HdurlKey) == r.hdurl;
    assert OptionalValue(c, ServiceVersionKey) == r.serviceVersion;
    assert OptionalValue(c, UrlKey) == r.url;
    MediaTypeRawRoundTrip(r.mediaType);
    DecodeAPODSucceedsIff(Encode(r));
  }
}

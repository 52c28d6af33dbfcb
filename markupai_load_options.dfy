/** The option loaders of the Markup AI node (`nodes/Markupai/utils/load.options.ts`): the tone,
    dialect and style-guide drop-downs, each filled from the service and, for tones and
    dialects, falling back to a built-in vocabulary when the service cannot be used. `baseUrl`
    is the credential's base URL after `new URL(...)` has normalised it. */
module MarkupAiLoadOptions {
  import opened Wrappers
  import opened Json
  import opened Errors
  import opened LoaderCommon
  import StyleApi

  /** The entry put in front of every tone list. */
  const NoneTone := "None (Keep Tone Unchanged)"

  const DefaultDialects: seq<string> := ["american_english", "british_english", "canadian_english"]

  const DefaultTones: seq<string> :=
    ["academic", "confident", "conversational", "empathetic", "engaging", "friendly", "professional", "technical"]

  /** `['None (Keep Tone Unchanged)', ...tones]` */
  function AppendDefaultTone(tones: seq<Value>): (r: seq<Value>)
    ensures |r| == |tones| + 1 && r[0] == Str(NoneTone)
    ensures r[1..] == tones
  {
    [Str(NoneTone)] + tones
  }

  /** The tone drop-down: the none entry first, then one entry per tone, in order. */
  function MapTones(tones: seq<Value>): (r: seq<PropertyOption>)
    ensures |r| == |tones| + 1
    ensures r[0] == PropertyOption(Some(Str(NoneTone)), Some(Str(NoneTone)))
    ensures forall i | 0 <= i < |tones| :: r[i + 1] == PropertyOption(Some(tones[i]), Some(tones[i]))
  {
    NameValue(AppendDefaultTone(tones))
  }

  function StyleGuidesRequest(baseUrl: string, apiKey: string): (r: StyleApi.HttpRequest)
    ensures r.verb == "GET" && r.url == baseUrl + "v1/style-guides" && r.form == []
    ensures r.headers == map["Authorization" := "Bearer " + apiKey]
  {
    StyleApi.HttpRequest("GET", baseUrl + "v1/style-guides", StyleApi.AuthHeaders(apiKey), [])
  }

  function ConstantsRequest(baseUrl: string, apiKey: string): (r: StyleApi.HttpRequest)
    ensures r.verb == "GET" && r.url == baseUrl + "v1/internal/constants" && r.form == []
    ensures r.headers == map["Authorization" := "Bearer " + apiKey]
  {
    StyleApi.HttpRequest("GET", baseUrl + "v1/internal/constants", StyleApi.AuthHeaders(apiKey), [])
  }

  /** The tones the service offers, when `getConstants` succeeds and its `tones` can be spread. */
  function ServiceTones(response: Result<HttpResponse, Error>): Option<seq<Value>> {
    match GetConstants(response)
    case Failure(_) => None
    case Success(constants) => Iterate(Get(constants, "tones"))
  }

  /** `loadTones`: never fails; the service's tones when they can be read, the built-in ones
      otherwise, behind the none entry either way. */
  function LoadTones(response: Result<HttpResponse, Error>): (r: seq<PropertyOption>)
    ensures |r| >= 1 && r[0] == PropertyOption(Some(Str(NoneTone)), Some(Str(NoneTone)))
    ensures ServiceTones(response).Some? ==> r == MapTones(ServiceTones(response).value)
    ensures ServiceTones(response).None? ==> r == MapTones(Strings(DefaultTones))
  {
    match ServiceTones(response)
    case Some(tones) => MapTones(tones)
    case None => MapTones(Strings(DefaultTones))
  }

  /** Whatever goes wrong (the request, the status, a missing or unusable `tones`), the list is
      the none entry followed by the eight built-in tones. */
  lemma LoadTonesFallback(response: Result<HttpResponse, Error>)
    requires ServiceTones(response).None?
    ensures |LoadTones(response)| == 9
    ensures Names(LoadTones(response)) ==
      [Some(Str(NoneTone))] + seq(|DefaultTones|, i requires 0 <= i < |DefaultTones| => Some(Str(DefaultTones[i])))
  {
    NameValueShowsVocabulary([NoneTone] + DefaultTones);
    assert Strings([NoneTone] + DefaultTones) == AppendDefaultTone(Strings(DefaultTones));
  }

  /** A status other than 200 always falls back, whatever the body says. */
  lemma RefusedStatusFallsBack(code: int, body: Value)
    requires code != 200
    ensures ServiceTones(Success(HttpResponse(code, body))).None?
    ensures LoadTones(Success(HttpResponse(code, body))) == MapTones(Strings(DefaultTones))
  {
  }

  /** The dialects the service offers, when `getConstants` succeeds and `dialects` is an array. */
  function ServiceDialects(response: Result<HttpResponse, Error>): Option<seq<Value>> {
    match GetConstants(response)
    case Failure(_) => None
    case Success(constants) => ArrayItems(Get(constants, "dialects"))
  }

  /** `loadDialects`: never fails; one entry per dialect of the service, else the built-in ones. */
  function LoadDialects(response: Result<HttpResponse, Error>): (r: seq<PropertyOption>)
    ensures ServiceDialects(response).Some? ==> r == NameValue(ServiceDialects(response).value)
    ensures ServiceDialects(response).None? ==> r == NameValue(Strings(DefaultDialects))
  {
    match ServiceDialects(response)
    case Some(dialects) => NameValue(dialects)
    case None => NameValue(Strings(DefaultDialects))
  }

  lemma LoadDialectsFallback(response: Result<HttpResponse, Error>)
    requires ServiceDialects(response).None?
    ensures |LoadDialects(response)| == 3
    ensures Names(LoadDialects(response)) == [Some(Str("american_english")), Some(Str("british_english")), Some(Str("canadian_english"))]
  {
    NameValueShowsVocabulary(DefaultDialects);
  }

  /** `loadStyleGuides`: the request it sends, and the entries or the error it ends with. */
  function LoadStyleGuides(baseUrl: string, apiKey: string, response: Result<HttpResponse, Error>)
    : (r: (StyleApi.HttpRequest, Result<seq<PropertyOption>, Error>))
    ensures r.0.url == baseUrl + "v1/style-guides"
    ensures r.1.Failure? ==> r.1.error == PlainError(StyleGuidesError)
    ensures r.1.Success? ==> response.Success? && response.value.statusCode == 200 && response.value.body.Arr?
    ensures r.1.Success? ==> |r.1.value| == |response.value.body.elems|
  {
    (StyleGuidesRequest(baseUrl, apiKey), StyleGuideOptions(response))
  }
}

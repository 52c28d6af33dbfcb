/** The option loaders of the Acrolinx node (`nodes/Acrolinx/utils/load.options.ts`), the older
    revision of the Markup AI ones: no none entry in front of the tones, a different built-in
    vocabulary, and the credential's base URL used as it is, with a `/` added before the path. */
module AcrolinxLoadOptions {
  import opened Wrappers
  import opened Json
  import opened Errors
  import opened LoaderCommon
  import StyleApi
  import MarkupAi = MarkupAiLoadOptions

  const DefaultDialects: seq<string> :=
    ["american_english", "australian_english", "british_oxford", "canadian_english", "indian_english"]

  const DefaultTones: seq<string> :=
    ["academic", "business", "casual", "conversational", "formal", "gen-z", "informal", "technical"]

  function StyleGuidesRequest(baseUrl: string, apiKey: string): (r: StyleApi.HttpRequest)
    ensures r.verb == "GET" && r.url == baseUrl + "/v1/style-guides" && r.form == []
    ensures r.headers == map["Authorization" := "Bearer " + apiKey]
  {
    StyleApi.HttpRequest("GET", baseUrl + "/v1/style-guides", StyleApi.AuthHeaders(apiKey), [])
  }

  function ConstantsRequest(baseUrl: string, apiKey: string): (r: StyleApi.HttpRequest)
    ensures r.verb == "GET" && r.url == baseUrl + "/v1/internal/constants" && r.form == []
    ensures r.headers == map["Authorization" := "Bearer " + apiKey]
  {
    StyleApi.HttpRequest("GET", baseUrl + "/v1/internal/constants", StyleApi.AuthHeaders(apiKey), [])
  }

  /** A raw base URL here asks for what the other revision asks for with a `/` appended. */
  lemma RequestsMatchOtherRevision(baseUrl: string, apiKey: string)
    ensures StyleGuidesRequest(baseUrl, apiKey) == MarkupAi.StyleGuidesRequest(baseUrl + "/", apiKey)
    ensures ConstantsRequest(baseUrl, apiKey) == MarkupAi.ConstantsRequest(baseUrl + "/", apiKey)
  {
    assert baseUrl + "/v1/style-guides" == (baseUrl + "/") + "v1/style-guides";
    assert baseUrl + "/v1/internal/constants" == (baseUrl + "/") + "v1/internal/constants";
  }

  /** The tones the service offers, when `getConstants` succeeds and `tones` is an array. */
  function ServiceTones(response: Result<HttpResponse, Error>): Option<seq<Value>> {
    match GetConstants(response)
    case Failure(_) => None
    case Success(constants) => ArrayItems(Get(constants, "tones"))
  }

  /** `loadTones`: one entry per tone of the service, else the eight built-in tones; never fails. */
  function LoadTones(response: Result<HttpResponse, Error>): (r: seq<PropertyOption>)
    ensures ServiceTones(response).Some? ==> r == NameValue(ServiceTones(response).value)
    ensures ServiceTones(response).None? ==> r == NameValue(Strings(DefaultTones))
  {
    match ServiceTones(response)
    case Some(tones) => NameValue(tones)
    case None => NameValue(Strings(DefaultTones))
  }

  lemma LoadTonesFallback(response: Result<HttpResponse, Error>)
    requires ServiceTones(response).None?
    ensures |LoadTones(response)| == 8
    ensures Names(LoadTones(response)) == seq(|DefaultTones|, i requires 0 <= i < |DefaultTones| => Some(Str(DefaultTones[i])))
  {
    NameValueShowsVocabulary(DefaultTones);
  }

  /** Given the same array of tones, the newer revision offers the same list with its none
      entry put in front. */
  lemma NewerRevisionAddsNoneTone(response: Result<HttpResponse, Error>)
    requires ServiceTones(response).Some?
    ensures MarkupAi.LoadTones(response) ==
      [PropertyOption(Some(Str(MarkupAi.NoneTone)), Some(Str(MarkupAi.NoneTone)))] + LoadTones(response)
  {
    var tones := ServiceTones(response).value;
    assert MarkupAi.ServiceTones(response) == Some(tones);
    NoneThenNameValue(tones);
  }

  /** The newer revision's tone mapping is the plain one with the none entry in front. */
  lemma NoneThenNameValue(tones: seq<Value>)
    ensures MarkupAi.MapTones(tones) ==
      [PropertyOption(Some(Str(MarkupAi.NoneTone)), Some(Str(MarkupAi.NoneTone)))] + NameValue(tones)
  {
    var newer, older := MarkupAi.MapTones(tones), NameValue(tones);
    var none := PropertyOption(Some(Str(MarkupAi.NoneTone)), Some(Str(MarkupAi.NoneTone)));
    forall i | 0 <= i < |newer|
      ensures newer[i] == ([none] + older)[i]
    {
      if i > 0 {
        assert newer[i] == PropertyOption(Some(tones[i - 1]), Some(tones[i - 1]));
      }
    }
  }

  function ServiceDialects(response: Result<HttpResponse, Error>): Option<seq<Value>> {
    match GetConstants(response)
    case Failure(_) => None
    case Success(constants) => ArrayItems(Get(constants, "dialects"))
  }

  /** `loadDialects`: one entry per dialect of the service, else the five built-in dialects. */
  function LoadDialects(response: Result<HttpResponse, Error>): (r: seq<PropertyOption>)
    ensures ServiceDialects(response).Some? ==> r == NameValue(ServiceDialects(response).value)
    ensures ServiceDialects(response).None? ==> r == NameValue(Strings(DefaultDialects))
  {
    match ServiceDialects(response)
    case Some(dialects) => NameValue(dialects)
    case None => NameValue(Strings(DefaultDialects))
  }

  lemma LoadDialectsFallback(response: Result<HttpResponse, Error>)
    requires ServiceDialects(response).None?
    ensures |LoadDialects(response)| == 5
    ensures Names(LoadDialects(response)) == seq(|DefaultDialects|, i requires 0 <= i < |DefaultDialects| => Some(Str(DefaultDialects[i])))
  {
    NameValueShowsVocabulary(DefaultDialects);
  }

  /** `loadStyleGuides`: the request it sends, and the entries or the error it ends with. */
  function LoadStyleGuides(baseUrl: string, apiKey: string, response: Result<HttpResponse, Error>)
    : (r: (StyleApi.HttpRequest, Result<seq<PropertyOption>, Error>))
    ensures r.0.url == baseUrl + "/v1/style-guides"
    ensures r.1.Failure? ==> r.1.error == PlainError(StyleGuidesError)
    ensures r.1.Success? ==> response.Success? && response.value.statusCode == 200 && response.value.body.Arr?
    ensures r.1.Success? ==> |r.1.value| == |response.value.body.elems|
  {
    (StyleGuidesRequest(baseUrl, apiKey), StyleGuideOptions(response))
  }
}

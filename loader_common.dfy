/** What the two revisions of the option loaders (`load.options.ts` of the Markup AI node and of
    the Acrolinx node) have in common: the drop-down entries they build, the answer of the
    host's HTTP helper, and the parts of an answer body they read. The answer itself is supplied
    from outside: `Failure` when the request threw, otherwise the status code and parsed body. */
module LoaderCommon {
  import opened Wrappers
  import opened Json
  import opened Errors

  /** An entry of a drop-down list: `name` is shown and `value` stored; `None` is `undefined`. */
  datatype PropertyOption = PropertyOption(name: Option<Value>, value: Option<Value>)

  /** An answer received with `returnFullResponse`: the status code and the parsed body. */
  datatype HttpResponse = HttpResponse(statusCode: int, body: Value)

  /** Why `getConstants` threw: the request itself failed, or the status was not 200 (the
      message it then parses out of the body is not modelled; every caller discards it). */
  datatype ConstantsFailure = RequestFailed(error: Error) | StatusRefused(statusCode: int)

  /** The list of a string vocabulary, as JSON strings. */
  function Strings(names: seq<string>): (r: seq<Value>)
    ensures |r| == |names|
    ensures forall i | 0 <= i < |names| :: r[i].Str? && r[i].s == names[i]
  {
    seq(|names|, i requires 0 <= i < |names| => Str(names[i]))
  }

  /** What `PropertyOption.name` shows for each entry of a list. */
  function Names(opts: seq<PropertyOption>): (r: seq<Option<Value>>)
    ensures |r| == |opts|
    ensures forall i | 0 <= i < |opts| :: r[i] == opts[i].name
  {
    seq(|opts|, i requires 0 <= i < |opts| => opts[i].name)
  }

  /** `vs.map((v) => ({name: v, value: v}))`: one entry per element, in order, showing and
      storing the element itself. */
  function NameValue(vs: seq<Value>): (r: seq<PropertyOption>)
    ensures |r| == |vs|
    ensures forall i | 0 <= i < |vs| :: r[i].name == r[i].value == Some(vs[i])
  {
    seq(|vs|, i requires 0 <= i < |vs| => PropertyOption(Some(vs[i]), Some(vs[i])))
  }

  /** The entries built from a vocabulary show exactly that vocabulary, in its order. */
  lemma {:induction false} NameValueShowsVocabulary(names: seq<string>)
    ensures Names(NameValue(Strings(names))) == seq(|names|, i requires 0 <= i < |names| => Some(Str(names[i])))
  {
    var shown := Names(NameValue(Strings(names)));
    forall i | 0 <= i < |names|
      ensures shown[i] == Some(Str(names[i]))
    {
      assert Strings(names)[i] == Str(names[i]);
    }
  }

  /** The elements of `[...v]`: an array gives its elements and a string its characters, each
      as a one-character string; any other value (or `undefined`) is not iterable and throws. */
  function Iterate(v: Option<Value>): (r: Option<seq<Value>>)
    ensures r.Some? <==> v.Some? && (v.value.Arr? || v.value.Str?)
    ensures r.Some? && v.value.Arr? ==> r.value == v.value.elems
    ensures r.Some? && v.value.Str? ==> |r.value| == |v.value.s|
  {
    match v
    case Some(Arr(elems)) => Some(elems)
    case Some(Str(s)) => Some(seq(|s|, i requires 0 <= i < |s| => Str([s[i]])))
    case _ => None
  }

  /** The elements `v.map(...)` walks over: only an array has a `map` method. */
  function ArrayItems(v: Option<Value>): (r: Option<seq<Value>>)
    ensures r.Some? <==> v.Some? && v.value.Arr?
    ensures r.Some? ==> r.value == v.value.elems
  {
    if v.Some? && v.value.Arr? then Some(v.value.elems) else None
  }

  /** `{...body}` read for its named keys: an object gives its own fields; the index keys of a
      spread string or array, and the nothing of any other value, name no field. */
  function ConstantsOf(body: Value): (r: Object)
    ensures body.Obj? ==> r == body.fields
    ensures !body.Obj? ==> forall k | k in r :: false
  {
    if body.Obj? then body.fields else map[]
  }

  /** `getConstants` after its request: it throws on a failed request and on any status but
      200, and otherwise answers a copy of the body. */
  function GetConstants(response: Result<HttpResponse, Error>): (r: Result<Object, ConstantsFailure>)
    ensures r.Success? <==> response.Success? && response.value.statusCode == 200
    ensures r.Success? ==> r.value == ConstantsOf(response.value.body)
    ensures response.Failure? ==> r == Failure(RequestFailed(response.error))
    ensures response.Success? && response.value.statusCode != 200 ==> r == Failure(StatusRefused(response.value.statusCode))
  {
    match response
    case Failure(e) => Failure(RequestFailed(e))
    case Success(HttpResponse(code, body)) =>
      if code != 200 then Failure(StatusRefused(code)) else Success(ConstantsOf(body))
  }

  /** The one message every failure of `loadStyleGuides` surfaces as. */
  const StyleGuidesError := "Error loading style guides"

  /** `{name: styleGuide.name, value: styleGuide.id}`; a guide that is not an object has
      neither property. (A `null` guide throws instead; see `StyleGuideOptions`.) */
  function GuideOption(g: Value): (r: PropertyOption)
    ensures g.Obj? ==> r == PropertyOption(Get(g.fields, "name"), Get(g.fields, "id"))
    ensures !g.Obj? ==> r == PropertyOption(None, None)
  {
    if g.Obj? then PropertyOption(Get(g.fields, "name"), Get(g.fields, "id")) else PropertyOption(None, None)
  }

  predicate NoNull(elems: seq<Value>) {
    forall i | 0 <= i < |elems| :: !elems[i].Null?
  }

  /** `loadStyleGuides` after its request, alike in both revisions. A failed request, a status
      other than 200, an empty (falsy) body, a body that is not an array and a `null` guide all
      end in the same error; otherwise each guide becomes one entry, in order. */
  function StyleGuideOptions(response: Result<HttpResponse, Error>): (r: Result<seq<PropertyOption>, Error>)
    ensures r.Failure? ==> r.error == PlainError(StyleGuidesError)
    ensures r.Success? <==>
      response.Success? && response.value.statusCode == 200 && response.value.body.Arr? && NoNull(response.value.body.elems)
    ensures r.Success? ==>
      var guides := response.value.body.elems;
      |r.value| == |guides| && forall i | 0 <= i < |guides| :: r.value[i] == GuideOption(guides[i])
  {
    if response.Failure? then Failure(PlainError(StyleGuidesError))
    else if response.value.statusCode != 200 then Failure(PlainError(StyleGuidesError))
    else if !Truthy(response.value.body) then Failure(PlainError(StyleGuidesError))
    else if !response.value.body.Arr? then Failure(PlainError(StyleGuidesError))
    else if !NoNull(response.value.body.elems) then Failure(PlainError(StyleGuidesError))
    else
      var guides := response.value.body.elems;
      Success(seq(|guides|, i requires 0 <= i < |guides| => GuideOption(guides[i])))
  }

  /** A list of well-formed guides comes back as one entry per guide showing its name and
      storing its id, in the order the service sent them. */
  lemma StyleGuidesNameAndId(response: Result<HttpResponse, Error>, names: seq<string>, ids: seq<string>)
    requires |names| == |ids|
    requires response.Success? && response.value.statusCode == 200 && response.value.body.Arr?
    requires var guides := response.value.body.elems;
      |guides| == |names| &&
      forall i | 0 <= i < |guides| :: guides[i] == Obj(map["name" := Str(names[i]), "id" := Str(ids[i])])
    ensures StyleGuideOptions(response).Success?
    ensures var opts := StyleGuideOptions(response).value;
      |opts| == |names| &&
      forall i | 0 <= i < |names| :: opts[i] == PropertyOption(Some(Str(names[i])), Some(Str(ids[i])))
  {
  }
}

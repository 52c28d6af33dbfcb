/** The base URL of the Markup AI service (`utils/common.utils.ts`). The environment variable
    `MARKUP_AI_BASE_URL` is passed in as `env`, `None` when it is not set. */
module CommonUtils {
  import opened Wrappers
  import opened Text

  const ProductionUrl := "https://api.markup.ai/"

  /** The override when it holds anything but white space, returned untrimmed; otherwise the
      production URL. */
  function GetBaseUrlString(env: Option<string>): (r: string)
    ensures !IsBlank(r)
    ensures env.Some? && !IsBlank(env.value) ==> r == env.value
    ensures env.None? || IsBlank(env.value) ==> r == ProductionUrl
  {
    if env.Some? && env.value != "" && TrimStart(env.value) != "" then env.value else ProductionUrl
  }

  /** Setting the variable to what was chosen changes nothing: the choice is stable. */
  lemma BaseUrlStable(env: Option<string>)
    ensures GetBaseUrlString(Some(GetBaseUrlString(env))) == GetBaseUrlString(env)
  {
  }

  /** A value made of white space only, the empty one included, is ignored. */
  lemma {:induction false} WhitespaceOverrideIgnored(ws: string)
    requires forall i :: 0 <= i < |ws| ==> IsSpace(ws[i])
    ensures GetBaseUrlString(Some(ws)) == ProductionUrl
  {
    TrimStartSkipsSpace(ws, []);
    assert ws + [] == ws;
  }

  /** A value with surrounding white space but something else in it is used with that white
      space still on it. */
  lemma {:induction false} PaddedOverrideKept(ws: string, url: string)
    requires forall i :: 0 <= i < |ws| ==> IsSpace(ws[i])
    requires url != [] && !IsSpace(url[0])
    ensures GetBaseUrlString(Some(ws + url)) == ws + url
  {
    TrimStartSkipsSpace(ws, url);
  }
}

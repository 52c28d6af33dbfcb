/** The content sniffer of `filename.extension.resolver.ts`: it guesses whether a text is DITA,
    Markdown, HTML or plain text and answers with the file extension the upload is named with.
    Every check looks at a sample that is trimmed at the start, cut to 256 (HTML) or 512
    (Markdown, DITA) characters and lower-cased. */
module ExtensionResolver {
  import opened Text
  import opened SniffPatterns

  /** The sample the HTML check looks at. */
  function HtmlSample(content: string): string {
    Lower(Slice(TrimStart(content), 256))
  }

  /** The sample the Markdown and DITA checks look at. */
  function Sample(content: string): string {
    Lower(Slice(TrimStart(content), 512))
  }

  predicate IsLikelyHtmlString(content: string) {
    HtmlPattern(HtmlSample(content))
  }

  predicate IsLikelyMarkdownString(content: string) {
    MarkdownPattern(Sample(content))
  }

  /** The four DITA checks in their order; the first is the `/DITA` form of the DOCTYPE check and
      the root-element check runs with the `i` and `m` flags. */
  predicate IsLikelyDitaString(content: string) {
    var s := Sample(content);
    HasDoctypeSlashDita(s) || HasDoctypeDtd(s) || HasXmlRoot(s, true) || HasClassTopic(s)
  }

  /** DITA wins over Markdown, Markdown over HTML, and plain text is the fallback. */
  function GetFileNameExtension(content: string): (r: string)
    ensures r == ".dita" || r == ".md" || r == ".html" || r == ".txt"
    ensures r == ".dita" <==> IsLikelyDitaString(content)
    ensures r == ".md" <==> !IsLikelyDitaString(content) && IsLikelyMarkdownString(content)
    ensures r == ".html" <==>
      !IsLikelyDitaString(content) && !IsLikelyMarkdownString(content) && IsLikelyHtmlString(content)
    ensures r == ".txt" <==>
      !IsLikelyDitaString(content) && !IsLikelyMarkdownString(content) && !IsLikelyHtmlString(content)
  {
    if IsLikelyDitaString(content) then ".dita"
    else if IsLikelyMarkdownString(content) then ".md"
    else if IsLikelyHtmlString(content) then ".html"
    else ".txt"
  }

  /** White space in front of the content never changes the answer. */
  lemma LeadingWhitespaceIgnored(ws: string, content: string)
    requires forall i :: 0 <= i < |ws| ==> IsSpace(ws[i])
    ensures GetFileNameExtension(ws + content) == GetFileNameExtension(content)
  {
    TrimStartSkipsSpace(ws, content);
    SameTrimmedSameAnswer(ws + content, content);
  }

  lemma SameTrimmedSameAnswer(a: string, b: string)
    requires TrimStart(a) == TrimStart(b)
    ensures GetFileNameExtension(a) == GetFileNameExtension(b)
  {
    SameTrimmedSameChecks(a, b);
  }

  lemma SameTrimmedSameChecks(a: string, b: string)
    requires TrimStart(a) == TrimStart(b)
    ensures IsLikelyDitaString(a) == IsLikelyDitaString(b)
    ensures IsLikelyMarkdownString(a) == IsLikelyMarkdownString(b)
    ensures IsLikelyHtmlString(a) == IsLikelyHtmlString(b)
  {
  }

  /** Only the first 512 characters after the leading white space are looked at. */
  lemma OnlyPrefixMatters(a: string, b: string)
    requires Slice(TrimStart(a), 512) == Slice(TrimStart(b), 512)
    ensures GetFileNameExtension(a) == GetFileNameExtension(b)
  {
    SliceOfSlice(TrimStart(a), 256, 512);
    SliceOfSlice(TrimStart(b), 256, 512);
  }

  lemma {:induction false} SampleOfLower(content: string, n: nat)
    ensures Lower(Slice(TrimStart(content), n)) == Slice(TrimStart(Lower(content)), n)
  {
    LowerSlice(TrimStart(content), n);
    LowerTrimStart(content);
  }

  /** Every sample is lower-cased, so two texts that differ only in letter case get the same answer. */
  lemma CaseInsensitive(a: string, b: string)
    requires Lower(a) == Lower(b)
    ensures GetFileNameExtension(a) == GetFileNameExtension(b)
  {
    SampleOfLower(a, 256);
    SampleOfLower(b, 256);
    SampleOfLower(a, 512);
    SampleOfLower(b, 512);
  }

  /** Text that holds no `<`, no `"`, no Markdown marker and no digit is plain text. */
  lemma PlainTextIsTxt(content: string)
    requires MarkerFree(content)
    ensures GetFileNameExtension(content) == ".txt"
  {
    MarkerFreeSample(content, 256);
    MarkerFreeSample(content, 512);
    MarkerFreeLower(Slice(TrimStart(content), 256));
    MarkerFreeLower(Slice(TrimStart(content), 512));
    NoMarkerNotHtmlOrMarkdown(HtmlSample(content));
    NoMarkerNotHtmlOrMarkdown(Sample(content));
    NoMarkerNotDita(Sample(content), true);
  }

  /** A text that opens, after its leading white space and in any letter case, with
      `<!doctype html` or `<html` is HTML unless it already counts as DITA or Markdown. */
  lemma HtmlOpeningIsHtml(content: string)
    requires LitAt(Lower(TrimStart(content)), 0, "<!doctype html") || LitAt(Lower(TrimStart(content)), 0, "<html")
    requires !IsLikelyDitaString(content) && !IsLikelyMarkdownString(content)
    ensures GetFileNameExtension(content) == ".html"
  {
    HtmlOpeningMatches(content);
  }

  lemma HtmlOpeningMatches(content: string)
    requires LitAt(Lower(TrimStart(content)), 0, "<!doctype html") || LitAt(Lower(TrimStart(content)), 0, "<html")
    ensures IsLikelyHtmlString(content)
  {
    var low := Lower(TrimStart(content));
    LowerSlice(TrimStart(content), 256);
    if LitAt(low, 0, "<!doctype html") {
      OpeningInSample(low, "<!doctype html");
    } else {
      OpeningInSample(low, "<html");
    }
  }

  /** An opening of the text is an opening of its 256-character sample. */
  lemma OpeningInSample(low: string, lit: string)
    requires |lit| <= 256 && LitAt(low, 0, lit)
    ensures LitAt(Slice(low, 256), 0, lit)
  {
    assert Slice(low, 256)[0..|lit|] == low[0..|lit|];
  }
}

/** The earlier content sniffer of `filename.resolver.ts`. It makes the same four-way decision as
    `ExtensionResolver`, but only its HTML sample is lower-cased, its first DOCTYPE check accepts
    `DITA` anywhere after the root name, and its root-element check is case-sensitive. */
module FilenameResolver {
  import opened Text
  import opened SniffPatterns
  import Current = ExtensionResolver

  function HtmlSample(content: string): string {
    Lower(Slice(TrimStart(content), 256))
  }

  /** The sample the Markdown and DITA checks look at: trimmed and cut, with its case kept. */
  function Sample(content: string): string {
    Slice(TrimStart(content), 512)
  }

  predicate IsLikelyHtmlString(content: string) {
    HtmlPattern(HtmlSample(content))
  }

  predicate IsLikelyMarkdownString(content: string) {
    MarkdownPattern(Sample(content))
  }

  predicate IsLikelyDitaString(content: string) {
    var s := Sample(content);
    HasDoctypeDita(s) || HasDoctypeDtd(s) || HasXmlRoot(s, false) || HasClassTopic(s)
  }

  /** DITA wins over Markdown, Markdown over HTML, and plain text is the fallback. */
  function GetStringContentType(content: string): (r: string)
    ensures r == ".dita" || r == ".md" || r == ".html" || r == ".txt"
    ensures r == ".dita" <==> IsLikelyDitaString(content)
    ensures r == ".md" <==> !IsLikelyDitaString(content) && IsLikelyMarkdownString(content)
    ensures r == ".html" <==>
      !IsLikelyDitaString(content) && !IsLikelyMarkdownString(content) && IsLikelyHtmlString(content)
    ensures r == ".txt" <==>
      !IsLikelyDitaString(content) && !IsLikelyMarkdownString(content) && !IsLikelyHtmlString(content)
  {
    if IsLikelyDitaString(content) then ".dita"
    else if IsLikelyMarkdownString(content) then ".md"
    else if IsLikelyHtmlString(content) then ".html"
    else ".txt"
  }

  /** White space in front of the content never changes the answer. */
  lemma LeadingWhitespaceIgnored(ws: string, content: string)
    requires forall i :: 0 <= i < |ws| ==> IsSpace(ws[i])
    ensures GetStringContentType(ws + content) == GetStringContentType(content)
  {
    TrimStartSkipsSpace(ws, content);
    SameTrimmedSameAnswer(ws + content, content);
  }

  lemma SameTrimmedSameAnswer(a: string, b: string)
    requires TrimStart(a) == TrimStart(b)
    ensures GetStringContentType(a) == GetStringContentType(b)
  {
    SameTrimmedSameChecks(a, b);
  }

  lemma SameTrimmedSameChecks(a: string, b: string)
    requires TrimStart(a) == TrimStart(b)
    ensures IsLikelyDitaString(a) == IsLikelyDitaString(b)
    ensures IsLikelyMarkdownString(a) == IsLikelyMarkdownString(b)
    ensures IsLikelyHtmlString(a) == IsLikelyHtmlString(b)
  {
  }

  /** Only the first 512 characters after the leading white space are looked at. */
  lemma OnlyPrefixMatters(a: string, b: string)
    requires Slice(TrimStart(a), 512) == Slice(TrimStart(b), 512)
    ensures GetStringContentType(a) == GetStringContentType(b)
  {
    SliceOfSlice(TrimStart(a), 256, 512);
    SliceOfSlice(TrimStart(b), 256, 512);
  }

  /** Text that holds no `<`, no `"`, no Markdown marker and no digit is plain text. */
  lemma PlainTextIsTxt(content: string)
    requires MarkerFree(content)
    ensures GetStringContentType(content) == ".txt"
  {
    MarkerFreeSample(content, 256);
    MarkerFreeSample(content, 512);
    MarkerFreeLower(Slice(TrimStart(content), 256));
    NoMarkerNotHtmlOrMarkdown(HtmlSample(content));
    NoMarkerNotHtmlOrMarkdown(Sample(content));
    NoMarkerNotDita(Sample(content), false);
  }

  /** The two revisions agree on Markdown: the later one lower-cases its sample first, and no
      Markdown expression depends on case. */
  lemma MarkdownAgreesAcrossRevisions(content: string)
    ensures IsLikelyMarkdownString(content) == Current.IsLikelyMarkdownString(content)
  {
    MarkdownIgnoresCase(Sample(content));
  }

  /** The two revisions share the HTML check and the fallback, so they differ only where one of
      them finds DITA. */
  lemma RevisionsDifferOnlyOnDita(content: string)
    requires IsLikelyDitaString(content) == Current.IsLikelyDitaString(content)
    ensures GetStringContentType(content) == Current.GetFileNameExtension(content)
  {
    MarkdownAgreesAcrossRevisions(content);
  }

  /** A DOCTYPE naming a DITA root element and followed, anywhere later and in any case, by
      `DITA` makes the text DITA, whatever else it holds. */
  lemma DoctypeNamingDitaIsDita(content: string, i: int, w: int, r: int, e: int, d: int)
    requires DoctypeDitaAt(Sample(content), i, w, r, e, d)
    ensures GetStringContentType(content) == ".dita"
  {
  }

  /** An XML declaration followed by a DITA root element such as `<map`, spelled in the case the
      list gives, makes the text DITA. */
  lemma XmlDeclarationThenRootIsDita(content: string, p: int, x: int, g: int, c: int, l: int, r: int, e: int)
    requires XmlRootAt(Sample(content), p, x, g, c, l, r, e, false)
    ensures GetStringContentType(content) == ".dita"
  {
  }

  /** A `<body` tag in a text that is not Markdown makes it HTML, XML declaration or not, when
      the sample has no `<!`, no `<` before a DITA root name and no `class="`. */
  lemma BodyTagIsHtml(content: string, i: int)
    requires HtmlTagAt(HtmlSample(content), i, 1)
    requires NoDitaSigns(Sample(content), false) && !IsLikelyMarkdownString(content)
    ensures GetStringContentType(content) == ".html"
  {
    NoDitaSignsNotDita(Sample(content), false);
  }

  /** A Markdown heading makes a text Markdown, whatever HTML it holds, when the sample has no
      `<!`, no `<` before a DITA root name and no `class="`. */
  lemma HeadingIsMarkdown(content: string, p: int, h: int, j: int)
    requires HeadingAt(Sample(content), p, h, j)
    requires NoDitaSigns(Sample(content), false)
    ensures GetStringContentType(content) == ".md"
  {
    NoDitaSignsNotDita(Sample(content), false);
  }

  /** A Markdown heading in a sample with neither `<` nor `"` makes the text Markdown. */
  lemma PlainHeadingIsMarkdown(content: string, p: int, h: int, j: int)
    requires HeadingAt(Sample(content), p, h, j)
    requires forall k | 0 <= k < |Sample(content)| :: Sample(content)[k] != '<' && Sample(content)[k] != '"'
    ensures GetStringContentType(content) == ".md"
  {
    NoTagOrQuoteNoDitaSigns(Sample(content), false);
    HeadingIsMarkdown(content, p, h, j);
  }
}

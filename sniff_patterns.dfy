/** The regular expressions of the content sniffer, each written out as a predicate
    over positions of the (already trimmed, sliced and possibly lower-cased) sample.

    A JavaScript `RegExp.test` succeeds when SOME way of matching exists, whatever the
    greediness of its quantifiers, so every expression becomes an existential over the
    positions where its parts begin and end: `[\s\S]*?` is a free position, `{0,N}` a
    position at most N further on, `^` under the `m` flag a line start, and `\b` a
    word boundary. Each `...At` predicate says that one particular choice of positions
    is a match; the pattern holds when some choice is. */
module SniffPatterns {
  import opened Text

  // ----- building blocks -----

  /** `lit` occurs at position `i` of `s`, character for character. */
  predicate LitAt(s: string, i: int, lit: string) {
    0 <= i && i + |lit| <= |s| && s[i..i + |lit|] == lit
  }

  /** `lit` occurs at position `i` under the regular-expression `i` flag. */
  predicate LitAtFolded(s: string, i: int, lit: string) {
    0 <= i && i + |lit| <= |s| && Lower(s[i..i + |lit|]) == Lower(lit)
  }

  predicate LitAtFlag(s: string, i: int, lit: string, ignoreCase: bool) {
    if ignoreCase then LitAtFolded(s, i, lit) else LitAt(s, i, lit)
  }

  /** Where `^` matches under the `m` flag: the start, or just after a line terminator. */
  predicate LineStart(s: string, p: int) {
    p == 0 || (0 < p <= |s| && IsLineTerminator(s[p - 1]))
  }

  /** Where `\b` matches: exactly one of the two neighbouring characters is a word character. */
  predicate WordBoundary(s: string, p: int) {
    0 <= p <= |s| && ((p > 0 && IsWordChar(s[p - 1])) != (p < |s| && IsWordChar(s[p])))
  }

  predicate AllSpace(s: string, a: int, b: int) {
    0 <= a <= b <= |s| && forall k | a <= k < b :: IsSpace(s[k])
  }

  predicate AllDigits(s: string, a: int, b: int) {
    0 <= a <= b <= |s| && forall k | a <= k < b :: IsDigit(s[k])
  }

  predicate AllEqual(s: string, a: int, b: int, c: char) {
    0 <= a <= b <= |s| && forall k | a <= k < b :: s[k] == c
  }

  /** A run matched by the negated class `[^c]`. */
  predicate NoneEqual(s: string, a: int, b: int, c: char) {
    0 <= a <= b <= |s| && forall k | a <= k < b :: s[k] != c
  }

  /** A run matched by `[^"']`. */
  predicate NoQuote(s: string, a: int, b: int) {
    0 <= a <= b <= |s| && forall k | a <= k < b :: !IsQuote(s[k])
  }

  /** A run matched by `.` repeated: no line terminator in it. */
  predicate NoTerminator(s: string, a: int, b: int) {
    0 <= a <= b <= |s| && forall k | a <= k < b :: !IsLineTerminator(s[k])
  }

  predicate IsQuote(c: char) {
    c == '"' || c == '\''
  }

  // ----- HTML: `startsWith("<!doctype html")`, `startsWith("<html")`, `/<(head|...|h6)\b/` -----

  const HtmlTagNames: seq<string> :=
    ["head", "body", "title", "div", "span", "p", "h1", "h2", "h3", "h4", "h5", "h6"]

  /** `<(head|body|title|div|span|p|h1|...|h6)\b` matches at `i` with alternative `t`. */
  predicate HtmlTagAt(s: string, i: int, t: int) {
    0 <= t < |HtmlTagNames| && 0 <= i < |s| && s[i] == '<'
    && LitAt(s, i + 1, HtmlTagNames[t]) && WordBoundary(s, i + 1 + |HtmlTagNames[t]|)
  }

  predicate HtmlPattern(s: string) {
    || LitAt(s, 0, "<!doctype html")
    || LitAt(s, 0, "<html")
    || exists i, t | 0 <= i < |s| && 0 <= t < |HtmlTagNames| :: HtmlTagAt(s, i, t)
  }

  // ----- Markdown -----

  /** `^---\n[\s\S]*?\n---\n` (no `m` flag): the closing fence starts at `k`. */
  predicate FrontmatterAt(s: string, k: int) {
    LitAt(s, 0, "---\n") && 4 <= k && LitAt(s, k, "\n---\n")
  }

  /** `^#{1,6}\s+.+` under `m`: hashes on [p, h), white space on [h, j), and one more character at `j`. */
  predicate HeadingAt(s: string, p: int, h: int, j: int) {
    LineStart(s, p) && p + 1 <= h <= p + 6 && AllEqual(s, p, h, '#')
    && h < j < |s| && AllSpace(s, h, j) && !IsLineTerminator(s[j])
  }

  /** `^\s{0,100}[-*+]\s+\S` under `m`: the marker sits at `m`, the first non-space after it at `j`. */
  predicate BulletAt(s: string, p: int, m: int, j: int) {
    LineStart(s, p) && p <= m <= p + 100 && AllSpace(s, p, m) && m < |s| && s[m] in "-*+"
    && m + 1 < j < |s| && AllSpace(s, m + 1, j) && !IsSpace(s[j])
  }

  /** `^\s{0,100}\d{1,10}\.\s+\S` under `m`: digits on [d, e), the dot at `e`. */
  predicate OrderedAt(s: string, p: int, d: int, e: int, j: int) {
    LineStart(s, p) && p <= d <= p + 100 && AllSpace(s, p, d)
    && d + 1 <= e <= d + 10 && AllDigits(s, d, e) && e < |s| && s[e] == '.'
    && e + 1 < j < |s| && AllSpace(s, e + 1, j) && !IsSpace(s[j])
  }

  /** `(\s+"[^"]{0,100}")` spanning [b, t): white space on [b, w), the quoted title on [w, t). */
  predicate TitleAt(s: string, b: int, w: int, t: int) {
    b < w && AllSpace(s, b, w) && w < |s| && s[w] == '"'
    && w + 1 <= t - 1 <= w + 101 && t <= |s| && NoneEqual(s, w + 1, t - 1, '"') && s[t - 1] == '"'
  }

  /** `\[[^\]]{0,200}]\([^)]{0,200}(\s+"[^"]{0,100}")?\)`: the `[` at `i`, the `](` at `a`,
      the optional title on [b, t) and the closing `)` at `t`. */
  predicate LinkAt(s: string, i: int, a: int, b: int, t: int) {
    0 <= i < |s| && s[i] == '[' && i + 1 <= a <= i + 201 && NoneEqual(s, i + 1, a, ']')
    && LitAt(s, a, "](") && a + 2 <= b <= a + 202 && NoneEqual(s, a + 2, b, ')')
    && (t == b || exists w | b < w < t :: TitleAt(s, b, w, t))
    && t < |s| && s[t] == ')'
  }

  /** The image expression is the link expression with a `!` in front. */
  predicate ImageAt(s: string, i: int, a: int, b: int, t: int) {
    0 <= i < |s| && s[i] == '!' && LinkAt(s, i + 1, a, b, t)
  }

  /** `.*$` under `m` from position `a`, ending at `e`. */
  predicate LineEndAt(s: string, a: int, e: int) {
    NoTerminator(s, a, e) && (e == |s| || IsLineTerminator(s[e]))
  }

  /** `^>\s*\S.*$` under `m`: the `>` at `p`, the first non-space at `j`. */
  predicate QuoteAt(s: string, p: int, j: int) {
    LineStart(s, p) && p < |s| && s[p] == '>' && p + 1 <= j < |s| && AllSpace(s, p + 1, j)
    && !IsSpace(s[j]) && RestOfLine(s, j + 1)
  }

  predicate RestOfLine(s: string, a: int) {
    exists e | a <= e <= |s| :: LineEndAt(s, a, e)
  }

  /** ```` ```[\s\S]{0,500}``` ````: the fences start at `i` and `k`. */
  predicate FenceAt(s: string, i: int, k: int) {
    LitAt(s, i, "```") && i + 3 <= k <= i + 503 && LitAt(s, k, "```")
  }

  predicate HasFrontmatter(s: string) {
    exists k | 0 <= k <= |s| :: FrontmatterAt(s, k)
  }

  predicate HasHeading(s: string) {
    exists p, h, j | 0 <= p <= |s| && 0 <= h <= |s| && 0 <= j <= |s| :: HeadingAt(s, p, h, j)
  }

  predicate HasList(s: string) {
    || (exists p, m, j | 0 <= p <= |s| && 0 <= m <= |s| && 0 <= j <= |s| :: BulletAt(s, p, m, j))
    || (exists p, d, e, j | 0 <= p <= |s| && 0 <= d <= |s| && 0 <= e <= |s| && 0 <= j <= |s| ::
          OrderedAt(s, p, d, e, j))
  }

  predicate HasLink(s: string) {
    exists i, a, b, t | 0 <= i <= |s| && 0 <= a <= |s| && 0 <= b <= |s| && 0 <= t <= |s| ::
      LinkAt(s, i, a, b, t)
  }

  predicate HasImage(s: string) {
    exists i, a, b, t | 0 <= i <= |s| && 0 <= a <= |s| && 0 <= b <= |s| && 0 <= t <= |s| ::
      ImageAt(s, i, a, b, t)
  }

  predicate HasBlockquote(s: string) {
    exists p, j | 0 <= p <= |s| && 0 <= j <= |s| :: QuoteAt(s, p, j)
  }

  predicate HasCodeFence(s: string) {
    exists i, k | 0 <= i <= |s| && 0 <= k <= |s| :: FenceAt(s, i, k)
  }

  /** The Markdown heuristic's checks, in their order in the source. */
  predicate MarkdownPattern(s: string) {
    HasFrontmatter(s) || HasHeading(s) || HasList(s) || HasLink(s) || HasImage(s)
    || HasBlockquote(s) || HasCodeFence(s)
  }

  // ----- DITA -----

  const DitaRootNames: seq<string> :=
    ["topic", "concept", "task", "reference", "map", "bookmap", "glossentry", "subjectScheme"]

  /** Root-name alternative `r` of `(?:topic|...|subjectScheme)` occupies [i, e). */
  predicate RootNameAt(s: string, i: int, r: int, e: int, ignoreCase: bool) {
    0 <= r < |DitaRootNames| && e == i + |DitaRootNames[r]| && LitAtFlag(s, i, DitaRootNames[r], ignoreCase)
  }

  /** `<!DOCTYPE\s+(?:roots)\b` with the `i` flag: the declaration at `i`, the root name on [w, e). */
  predicate DoctypeRootAt(s: string, i: int, w: int, r: int, e: int) {
    LitAtFolded(s, i, "<!DOCTYPE") && i + 9 < w && AllSpace(s, i + 9, w)
    && RootNameAt(s, w, r, e, true) && WordBoundary(s, e)
  }

  /** `<!DOCTYPE\s+(?:roots)\b[\s\S]*?["'][^"']*\.dtd["']` with the `i` flag: an opening quote at
      `q` and `.dtd` at `x` directly before a closing quote. */
  predicate DoctypeDtdAt(s: string, i: int, w: int, r: int, e: int, q: int, x: int) {
    DoctypeRootAt(s, i, w, r, e) && e <= q < |s| && IsQuote(s[q]) && q + 1 <= x
    && NoQuote(s, q + 1, x) && LitAtFolded(s, x, ".dtd") && x + 4 < |s| && IsQuote(s[x + 4])
  }

  /** `^\s*<\?xml[\s\S]{0,200}?\?>?\s*<(?:roots)\b` under `m`: the declaration opens at `x`, the
      `?` that closes it is at `g`, white space runs on [c, l), and the root name follows the `<` at `l`. */
  predicate XmlRootAt(s: string, p: int, x: int, g: int, c: int, l: int, r: int, e: int, ignoreCase: bool) {
    LineStart(s, p) && AllSpace(s, p, x) && LitAtFlag(s, x, "<?xml", ignoreCase)
    && x + 5 <= g <= x + 205 && g < |s| && s[g] == '?'
    && (c == g + 1 || (c == g + 2 && g + 1 < |s| && s[g + 1] == '>'))
    && AllSpace(s, c, l) && l < |s| && s[l] == '<' && RootNameAt(s, l + 1, r, e, ignoreCase)
    && WordBoundary(s, e)
  }

  /** `\bclass="[^"]*\btopic\/topic\b` with the `i` flag: `class="` at `i`, `topic/topic` at `j`. */
  predicate ClassTopicAt(s: string, i: int, j: int) {
    WordBoundary(s, i) && LitAtFolded(s, i, "class=\"") && i + 7 <= j && NoneEqual(s, i + 7, j, '"')
    && WordBoundary(s, j) && LitAtFolded(s, j, "topic/topic") && WordBoundary(s, j + 11)
  }

  /** `<!DOCTYPE\s+(?:roots)\b[\s\S]*DITA` with the `i` flag: `DITA` at `d`, anywhere after the root name. */
  predicate DoctypeDitaAt(s: string, i: int, w: int, r: int, e: int, d: int) {
    DoctypeRootAt(s, i, w, r, e) && e <= d && LitAtFolded(s, d, "DITA")
  }

  // `<!DOCTYPE\s+(?:roots)\b/.*/DITA` with the `i` and `s` flags: a `/` directly after the root
  // name and `/DITA` at `d`, somewhere after it.
  predicate DoctypeSlashDitaAt(s: string, i: int, w: int, r: int, e: int, d: int) {
    DoctypeRootAt(s, i, w, r, e) && e < |s| && s[e] == '/' && e + 1 <= d && LitAtFolded(s, d, "/DITA")
  }

  predicate HasDoctypeDita(s: string) {
    exists i, w, r, e, d |
      0 <= i <= |s| && 0 <= w <= |s| && 0 <= r < |DitaRootNames| && 0 <= e <= |s| && 0 <= d <= |s| ::
      DoctypeDitaAt(s, i, w, r, e, d)
  }

  predicate HasDoctypeSlashDita(s: string) {
    exists i, w, r, e, d |
      0 <= i <= |s| && 0 <= w <= |s| && 0 <= r < |DitaRootNames| && 0 <= e <= |s| && 0 <= d <= |s| ::
      DoctypeSlashDitaAt(s, i, w, r, e, d)
  }

  predicate HasDoctypeDtd(s: string) {
    exists i, w, r, e, q, x |
      0 <= i <= |s| && 0 <= w <= |s| && 0 <= r < |DitaRootNames| && 0 <= e <= |s| && 0 <= q <= |s| && 0 <= x <= |s| ::
      DoctypeDtdAt(s, i, w, r, e, q, x)
  }

  predicate HasXmlRoot(s: string, ignoreCase: bool) {
    exists p, x, g, c, l, r, e |
      0 <= p <= |s| && 0 <= x <= |s| && 0 <= g <= |s| && 0 <= c <= |s| && 0 <= l <= |s|
      && 0 <= r < |DitaRootNames| && 0 <= e <= |s| ::
      XmlRootAt(s, p, x, g, c, l, r, e, ignoreCase)
  }

  predicate HasClassTopic(s: string) {
    exists i, j | 0 <= i <= |s| && 0 <= j <= |s| :: ClassTopicAt(s, i, j)
  }

  // ----- facts about the patterns -----

  /** `.*$` under the `m` flag always matches: it runs to the first line terminator or the end. */
  lemma {:induction false} LineEndExists(s: string, a: int)
    requires 0 <= a <= |s|
    ensures RestOfLine(s, a)
    decreases |s| - a
  {
    if a == |s| || IsLineTerminator(s[a]) {
      assert LineEndAt(s, a, a);
    } else {
      LineEndExists(s, a + 1);
      var e :| a + 1 <= e <= |s| && LineEndAt(s, a + 1, e);
      assert LineEndAt(s, a, e);
    }
  }

  /** Every image reference contains a link reference, so the image check never decides the result. */
  lemma ImageImpliesLink(s: string)
    ensures HasImage(s) ==> HasLink(s)
  {
    if HasImage(s) {
      var i, a, b, t :| 0 <= i <= |s| && 0 <= a <= |s| && 0 <= b <= |s| && 0 <= t <= |s| && ImageAt(s, i, a, b, t);
      assert LinkAt(s, i + 1, a, b, t);
    }
  }

  lemma SlashDitaContainsDita(s: string, d: int)
    requires LitAtFolded(s, d, "/DITA")
    ensures LitAtFolded(s, d + 1, "DITA")
  {
    assert s[d + 1..d + 5] == s[d..d + 5][1..];
    assert Lower(s[d + 1..d + 5]) == Lower(s[d..d + 5])[1..];
    assert Lower("DITA") == Lower("/DITA")[1..];
  }

  /** The later form of the first DOCTYPE expression only ever matches where the earlier form
      does: `/DITA` contains `DITA`, and the `/` right after the root name is past it. */
  lemma SlashFormNarrower(s: string)
    ensures HasDoctypeSlashDita(s) ==> HasDoctypeDita(s)
  {
    forall i, w, r, e, d | DoctypeSlashDitaAt(s, i, w, r, e, d) ensures DoctypeDitaAt(s, i, w, r, e, d + 1) {
      SlashDitaContainsDita(s, d);
    }
  }

  /** The characters without which no sniffing expression can match: each one needs a `<`, a
      `"`, one of the Markdown markers or a digit somewhere in the sample. */
  predicate SniffMarker(c: char) {
    c in "<\"-#*+[>`" || IsDigit(c)
  }

  /** A `lit` that starts with `c` can only occur where `c` does (up to case when folded). */
  lemma LitAtHead(s: string, i: int, lit: string)
    requires lit != [] && !IsUpper(lit[0]) && !('a' <= lit[0] <= 'z')
    ensures LitAt(s, i, lit) ==> s[i] == lit[0]
    ensures LitAtFolded(s, i, lit) ==> s[i] == lit[0]
  {
    if LitAtFolded(s, i, lit) {
      assert Lower(s[i..i + |lit|])[0] == LowerChar(s[i]);
      assert Lower(lit)[0] == LowerChar(lit[0]);
    }
    if LitAt(s, i, lit) {
      assert s[i..i + |lit|][0] == s[i];
    }
  }

  /** `class="` puts a double quote six characters after the match start. */
  lemma ClassTopicQuote(s: string, i: int, j: int)
    requires ClassTopicAt(s, i, j)
    ensures s[i + 6] == '"'
  {
    assert Lower(s[i..i + 7])[6] == LowerChar(s[i + 6]);
    assert Lower("class=\"")[6] == '"';
  }

  /** Text made only of characters that are not markers matches none of the HTML and
      Markdown expressions. */
  lemma NoMarkerNotHtmlOrMarkdown(s: string)
    requires MarkerFree(s)
    ensures !HtmlPattern(s) && !MarkdownPattern(s)
  {
    LitAtHead(s, 0, "<!doctype html");
    LitAtHead(s, 0, "<html");
    LitAtHead(s, 0, "---\n");
    forall i, a, b, t | LinkAt(s, i, a, b, t) ensures false {
      assert SniffMarker(s[i]);
    }
    forall i, k | FenceAt(s, i, k) ensures false {
      LitAtHead(s, i, "```");
    }
    forall p, j | QuoteAt(s, p, j) ensures false {
      assert SniffMarker(s[p]);
    }
    forall p, h, j | HeadingAt(s, p, h, j) ensures false {
      assert SniffMarker(s[p]);
    }
    forall p, d, e, j | OrderedAt(s, p, d, e, j) ensures false {
      assert SniffMarker(s[d]);
    }
  }

  /** Text made only of characters that are not markers matches none of the DITA expressions. */
  lemma NoMarkerNotDita(s: string, ignoreCase: bool)
    requires MarkerFree(s)
    ensures !HasDoctypeDita(s) && !HasDoctypeSlashDita(s) && !HasDoctypeDtd(s)
    ensures !HasXmlRoot(s, ignoreCase) && !HasClassTopic(s)
  {
    forall i, w, r, e | DoctypeRootAt(s, i, w, r, e) ensures false {
      LitAtHead(s, i, "<!DOCTYPE");
    }
    forall i, j | ClassTopicAt(s, i, j) ensures false {
      ClassTopicQuote(s, i, j);
    }
    forall p, x, g, c, l, r, e | XmlRootAt(s, p, x, g, c, l, r, e, ignoreCase) ensures false {
      assert SniffMarker(s[l]);
    }
  }

  /** Text without the openings every DITA expression needs: no `<!` for a declaration, no `<`
      directly before a DITA root name, and no `class="` in any case. */
  predicate NoDitaSigns(s: string, ignoreCase: bool) {
    && (forall i | 0 <= i < |s| - 1 :: s[i] == '<' ==> s[i + 1] != '!')
    && (forall i, r | 0 <= i < |s| && 0 <= r < |DitaRootNames| ::
          s[i] == '<' ==> !LitAtFlag(s, i + 1, DitaRootNames[r], ignoreCase))
    && (forall i | 0 <= i < |s| :: !LitAtFolded(s, i, "class=\""))
  }

  /** `<!DOCTYPE` in any case starts with `<!`. */
  lemma DeclarationOpens(s: string, i: int)
    ensures LitAtFolded(s, i, "<!DOCTYPE") ==> s[i] == '<' && s[i + 1] == '!'
  {
    if LitAtFolded(s, i, "<!DOCTYPE") {
      assert Lower(s[i..i + 9])[0] == LowerChar(s[i]);
      assert Lower(s[i..i + 9])[1] == LowerChar(s[i + 1]);
    }
  }

  /** `class="` in any case puts a double quote six characters after its start. */
  lemma ClassAttributeQuote(s: string, i: int)
    ensures LitAtFolded(s, i, "class=\"") ==> s[i + 6] == '"'
  {
  }

  /** Without those openings none of the DITA expressions matches, HTML and other XML included. */
  lemma NoDitaSignsNotDita(s: string, ignoreCase: bool)
    requires NoDitaSigns(s, ignoreCase)
    ensures !HasDoctypeDita(s) && !HasDoctypeSlashDita(s) && !HasDoctypeDtd(s)
    ensures !HasXmlRoot(s, ignoreCase) && !HasClassTopic(s)
  {
    forall i, w, r, e | DoctypeRootAt(s, i, w, r, e) ensures false {
      DeclarationOpens(s, i);
    }
  }

  /** Text with neither `<` nor `"` has none of the openings. */
  lemma NoTagOrQuoteNoDitaSigns(s: string, ignoreCase: bool)
    requires forall k | 0 <= k < |s| :: s[k] != '<' && s[k] != '"'
    ensures NoDitaSigns(s, ignoreCase)
  {
    forall i | 0 <= i < |s| ensures !LitAtFolded(s, i, "class=\"") {
      ClassAttributeQuote(s, i);
    }
  }

  /** A literal without letters occurs in the lower-cased text exactly where it occurs in the text. */
  lemma LitAtLower(s: string, i: int, lit: string)
    requires forall k | 0 <= k < |lit| :: !IsUpper(lit[k]) && !('a' <= lit[k] <= 'z')
    ensures LitAt(Lower(s), i, lit) <==> LitAt(s, i, lit)
  {
    if 0 <= i && i + |lit| <= |s| {
      var low := Lower(s);
      if LitAt(low, i, lit) {
        forall k | 0 <= k < |lit| ensures s[i + k] == lit[k] {
          assert low[i..i + |lit|][k] == low[i + k];
        }
        assert s[i..i + |lit|] == lit;
      }
      if LitAt(s, i, lit) {
        forall k | 0 <= k < |lit| ensures low[i + k] == lit[k] {
          assert s[i..i + |lit|][k] == s[i + k];
        }
        assert low[i..i + |lit|] == lit;
      }
    }
  }

  /** Lower-casing keeps every character class the Markdown expressions test. */
  predicate SameClasses(a: char, b: char) {
    && IsSpace(a) == IsSpace(b) && IsDigit(a) == IsDigit(b) && IsLineTerminator(a) == IsLineTerminator(b)
    && (a == '#') == (b == '#') && (a in "-*+") == (b in "-*+") && (a == '.') == (b == '.')
    && (a == ']') == (b == ']') && (a == ')') == (b == ')') && (a == '"') == (b == '"')
    && (a == '[') == (b == '[') && (a == '!') == (b == '!') && (a == '>') == (b == '>')
  }

  lemma LowerSameClasses(s: string)
    ensures forall k | 0 <= k < |s| :: SameClasses(Lower(s)[k], s[k])
  {
  }

  lemma FrontmatterIgnoresCase(s: string)
    ensures HasFrontmatter(Lower(s)) == HasFrontmatter(s)
  {
    LitAtLower(s, 0, "---\n");
    forall k ensures FrontmatterAt(Lower(s), k) == FrontmatterAt(s, k) {
      LitAtLower(s, k, "\n---\n");
    }
  }

  lemma HeadingIgnoresCase(s: string)
    ensures HasHeading(Lower(s)) == HasHeading(s)
  {
    LowerSameClasses(s);
    forall p, h, j ensures HeadingAt(Lower(s), p, h, j) == HeadingAt(s, p, h, j) {
    }
  }

  lemma BulletAtIgnoresCase(s: string, p: int, m: int, j: int)
    ensures BulletAt(Lower(s), p, m, j) == BulletAt(s, p, m, j)
  {
    LowerSameClasses(s);
  }

  lemma OrderedAtIgnoresCase(s: string, p: int, d: int, e: int, j: int)
    ensures OrderedAt(Lower(s), p, d, e, j) == OrderedAt(s, p, d, e, j)
  {
    LowerSameClasses(s);
  }

  lemma ListIgnoresCase(s: string)
    ensures HasList(Lower(s)) == HasList(s)
  {
    forall p, m, j ensures BulletAt(Lower(s), p, m, j) == BulletAt(s, p, m, j) {
      BulletAtIgnoresCase(s, p, m, j);
    }
    forall p, d, e, j ensures OrderedAt(Lower(s), p, d, e, j) == OrderedAt(s, p, d, e, j) {
      OrderedAtIgnoresCase(s, p, d, e, j);
    }
  }

  lemma LinkAtIgnoresCase(s: string, i: int, a: int, b: int, t: int)
    ensures LinkAt(Lower(s), i, a, b, t) == LinkAt(s, i, a, b, t)
  {
    LowerSameClasses(s);
    LitAtLower(s, a, "](");
    forall w ensures TitleAt(Lower(s), b, w, t) == TitleAt(s, b, w, t) {
    }
  }

  lemma LinkIgnoresCase(s: string)
    ensures HasLink(Lower(s)) == HasLink(s) && HasImage(Lower(s)) == HasImage(s)
  {
    LowerSameClasses(s);
    forall i, a, b, t ensures LinkAt(Lower(s), i, a, b, t) == LinkAt(s, i, a, b, t) {
      LinkAtIgnoresCase(s, i, a, b, t);
    }
    forall i, a, b, t ensures ImageAt(Lower(s), i, a, b, t) == ImageAt(s, i, a, b, t) {
      LinkAtIgnoresCase(s, i + 1, a, b, t);
    }
  }

  lemma BlockquoteIgnoresCase(s: string)
    ensures HasBlockquote(Lower(s)) == HasBlockquote(s)
  {
    LowerSameClasses(s);
    forall a, e ensures LineEndAt(Lower(s), a, e) == LineEndAt(s, a, e) {
    }
    forall p, j ensures QuoteAt(Lower(s), p, j) == QuoteAt(s, p, j) {
    }
  }

  lemma FenceIgnoresCase(s: string)
    ensures HasCodeFence(Lower(s)) == HasCodeFence(s)
  {
    forall i, k ensures FenceAt(Lower(s), i, k) == FenceAt(s, i, k) {
      LitAtLower(s, i, "```");
      LitAtLower(s, k, "```");
    }
  }

  /** None of the Markdown expressions mentions a letter, and lower-casing keeps white space,
      digits, line ends and punctuation where they are, so the Markdown check does not depend on case. */
  lemma MarkdownIgnoresCase(s: string)
    ensures MarkdownPattern(Lower(s)) == MarkdownPattern(s)
  {
    FrontmatterIgnoresCase(s);
    HeadingIgnoresCase(s);
    ListIgnoresCase(s);
    LinkIgnoresCase(s);
    BlockquoteIgnoresCase(s);
    FenceIgnoresCase(s);
  }

  predicate MarkerFree(s: string) {
    forall k | 0 <= k < |s| :: !SniffMarker(s[k])
  }

  /** Trimming and slicing keep only characters of the text. */
  lemma MarkerFreeSample(content: string, n: nat)
    requires MarkerFree(content)
    ensures MarkerFree(Slice(TrimStart(content), n))
  {
    var trimmed := TrimStart(content);
    var sample := Slice(trimmed, n);
    forall k | 0 <= k < |sample| ensures !SniffMarker(sample[k]) {
      assert sample[k] == trimmed[k] == content[|content| - |trimmed| + k];
    }
  }

  /** Lower-casing turns no character into a marker: markers are not letters. */
  lemma MarkerFreeLower(s: string)
    requires MarkerFree(s)
    ensures MarkerFree(Lower(s))
  {
    forall k | 0 <= k < |s| ensures !SniffMarker(Lower(s)[k]) {
      assert Lower(s)[k] == LowerChar(s[k]);
    }
  }
}

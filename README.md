# Markup AI n8n node — a Dafny model of its core

The package is an n8n community node that sends a text to the Markup AI style service and
returns what the service answers, with an HTML e-mail report added. This project models the
parts of it that decide something on their own:

- the **content sniffer**, in both revisions (`getFileNameExtension` and the older
  `getStringContentType`). It guesses whether a text is DITA, Markdown, HTML or plain text. Every
  regular expression is written out as a predicate over positions of the sample
  (`SniffPatterns`).
- the **submit/poll protocol** of `style.api.utils.ts` (`StyleApi`):
  - the request the POST sends;
  - the polling loop, as a method over a clock oracle and a sequence of GET answers, proved
    against a recursive definition;
  - `styleRequest`, which returns one record per call.
- the **per-item orchestration**:
  - `processMarkupaiItem` with its option defaults, the tone sentinel and error shaping
    (`ProcessItem`);
  - the batch loop of the node's `execute`, a method proved against a recursive definition
    (`MarkupAiNode`).
- the **option loaders** of both revisions, each a mapping from an HTTP answer to option lists,
  with built-in fallback lists (`LoaderCommon`, `MarkupAiLoadOptions`, `AcrolinxLoadOptions`).
- the **report figures** of both e-mail generators (`ReportCommon`, `MarkupAiEmail`,
  `AcrolinxEmail`): the three-band score colour, and the figures the report prints, each with
  its default.
- `getBaseUrlString` (`CommonUtils`).

How the outside world is modelled:
- JSON values are the datatype `Json.Value`, and JSON objects are `map<string, Value>`. A key
  that holds `undefined` is an absent key, and an object spread is a map union in which the
  later map wins.
- The HTTP service is a set of oracles:
  - what the POST answers, `posted`;
  - what the k-th status GET answers, `bodies(k)`;
  - what `Date.now()` reads at the k-th check of the polling loop, `clock(k)`, where `clock(0)`
    is the start time.
- The e-mail report generator is a function parameter, `ProcessItem.ReportGenerator`. It returns
  either the page or the error it throws. `ProcessItem.UnguardedReadThrows` names the JSON on
  which the Markup AI generator throws for certain: its reads that have no `?.` guard.

## Model

| member | source | states |
|---|---|---|
| ExtensionResolver.GetFileNameExtension | nodes/Markupai/utils/filename.extension.resolver.ts:85-99 | The answer is one of `.dita`, `.md`, `.html`, `.txt`. It is `.dita` exactly when the DITA check holds; `.md` exactly when DITA fails and Markdown holds; `.html` exactly when both fail and HTML holds; `.txt` exactly when all three fail. |
| ExtensionResolver.LeadingWhitespaceIgnored | nodes/Markupai/utils/filename.extension.resolver.ts:3-55 | Prepending white space never changes the answer. |
| ExtensionResolver.SameTrimmedSameAnswer | nodes/Markupai/utils/filename.extension.resolver.ts:3-55 | Two texts with the same `trimStart()` get the same answer. |
| ExtensionResolver.SameTrimmedSameChecks | nodes/Markupai/utils/filename.extension.resolver.ts:3-55 | Two texts with the same `trimStart()` agree on each of the three checks. |
| ExtensionResolver.OnlyPrefixMatters | nodes/Markupai/utils/filename.extension.resolver.ts:3-55 | Only the first 512 characters after the leading white space affect the answer. The HTML check reads only the first 256 of them. |
| ExtensionResolver.SampleOfLower | nodes/Markupai/utils/filename.extension.resolver.ts:3-55 | Lower-casing commutes with trimming and slicing, so the sample of the lower-cased text is the lower-cased sample. |
| ExtensionResolver.CaseInsensitive | nodes/Markupai/utils/filename.extension.resolver.ts:3-55 | Two texts that differ only in ASCII letter case get the same answer. |
| ExtensionResolver.PlainTextIsTxt | nodes/Markupai/utils/filename.extension.resolver.ts:2-99 | A text with no `<`, no `"`, no Markdown marker character and no digit is `.txt`. |
| ExtensionResolver.HtmlOpeningIsHtml | nodes/Markupai/utils/filename.extension.resolver.ts:85-99 | Suppose the trimmed text opens with `<!doctype html` or `<html`, in any case. Unless it is DITA or Markdown, it is `.html`. |
| ExtensionResolver.HtmlOpeningMatches | nodes/Markupai/utils/filename.extension.resolver.ts:3-7 | Such an opening alone makes the HTML check hold. |
| FilenameResolver.GetStringContentType | nodes/Markupai/utils/filename.resolver.ts:86-100 | Each check is consulted only when every earlier one failed, in the order DITA, Markdown, HTML, then `.txt`. Each answer is characterised as an if-and-only-if, as above. |
| FilenameResolver.LeadingWhitespaceIgnored | nodes/Markupai/utils/filename.resolver.ts:3-60 | Prepending white space never changes the answer. |
| FilenameResolver.SameTrimmedSameAnswer | nodes/Markupai/utils/filename.resolver.ts:3-60 | Two texts with the same `trimStart()` get the same answer. |
| FilenameResolver.SameTrimmedSameChecks | nodes/Markupai/utils/filename.resolver.ts:3-60 | Two texts with the same `trimStart()` agree on each check. |
| FilenameResolver.OnlyPrefixMatters | nodes/Markupai/utils/filename.resolver.ts:3-60 | Only the first 512 trimmed characters matter. |
| FilenameResolver.PlainTextIsTxt | nodes/Markupai/utils/filename.resolver.ts:86-99 | A text with no marker character is `.txt`. |
| FilenameResolver.MarkdownAgreesAcrossRevisions | nodes/Markupai/utils/filename.resolver.ts:14-56 | The two revisions' Markdown checks agree on every text. No Markdown expression depends on letter case. |
| FilenameResolver.RevisionsDifferOnlyOnDita | nodes/Markupai/utils/filename.resolver.ts:86-100 | Wherever the two revisions agree on DITA, they give the same answer. |
| FilenameResolver.DoctypeNamingDitaIsDita | nodes/Markupai/utils/filename.resolver.ts:65-67 | A DOCTYPE that names a DITA root and is followed later by `DITA`, in any case, gives `.dita`. |
| FilenameResolver.XmlDeclarationThenRootIsDita | nodes/Markupai/utils/filename.resolver.ts:77-79 | An XML declaration followed by a DITA root element, in the listed case, gives `.dita`. |
| FilenameResolver.BodyTagIsHtml | nodes/Markupai/utils/filename.resolver.ts:86-100 | A `<body` tag (one of the tags of line 10) in a text that is not Markdown gives `.html`, when the sample has no `<!`, no `<` before a DITA root name and no `class="`. |
| FilenameResolver.HeadingIsMarkdown | nodes/Markupai/utils/filename.resolver.ts:86-100 | A Markdown heading (line 22) gives `.md`, whatever HTML the text holds, when the sample has no `<!`, no `<` before a DITA root name and no `class="`. |
| FilenameResolver.PlainHeadingIsMarkdown | nodes/Markupai/utils/filename.resolver.ts:86-100 | A Markdown heading in a sample with neither `<` nor `"` gives `.md`. |
| SniffPatterns.SlashFormNarrower | nodes/Markupai/utils/filename.extension.resolver.ts:60 | The later revision's first DOCTYPE check requires `/` directly after the root name. Every text it accepts is also accepted by the older form at filename.resolver.ts:65. |
| SniffPatterns.SlashDitaContainsDita | nodes/Markupai/utils/filename.extension.resolver.ts:60 | A `/DITA` match contains a `DITA` match one character further on. |
| SniffPatterns.ImageImpliesLink | nodes/Markupai/utils/filename.extension.resolver.ts:33-41 | Every image match contains a link match, so the image check never adds an answer. |
| SniffPatterns.LineEndExists | nodes/Markupai/utils/filename.extension.resolver.ts:45 | From any position, `.*$` under the `m` flag matches up to the next line end. |
| SniffPatterns.NoMarkerNotHtmlOrMarkdown | nodes/Markupai/utils/filename.extension.resolver.ts:2-51 | A sample without marker characters fails the HTML check and the Markdown check. |
| SniffPatterns.NoDitaSignsNotDita | nodes/Markupai/utils/filename.extension.resolver.ts:54-82 | A sample without `<!`, without `<` directly before a DITA root name and without `class="` fails all four DITA checks. |
| SniffPatterns.DeclarationOpens | nodes/Markupai/utils/filename.extension.resolver.ts:59-71 | A `<!DOCTYPE` match, in any case, starts with `<` and `!`. |
| SniffPatterns.ClassAttributeQuote | nodes/Markupai/utils/filename.extension.resolver.ts:81-82 | A `class="` match, in any case, has a double quote six characters after its start. |
| SniffPatterns.NoTagOrQuoteNoDitaSigns | nodes/Markupai/utils/filename.extension.resolver.ts:54-82 | A text with neither `<` nor `"` has none of the openings the DITA checks need. |
| SniffPatterns.NoMarkerNotDita | nodes/Markupai/utils/filename.extension.resolver.ts:54-82 | A sample without marker characters fails all four DITA checks, with or without the `i` flag. |
| SniffPatterns.MarkdownIgnoresCase | nodes/Markupai/utils/filename.extension.resolver.ts:14-51 | The Markdown check gives the same verdict on a sample and on its lower-cased form. |
| SniffPatterns.LitAtLower | nodes/Markupai/utils/filename.extension.resolver.ts:15 | A literal without letters occurs in the lower-cased text exactly where it occurs in the text. |
| StyleApi.GetPath | nodes/Markupai/utils/style.api.utils.ts:146-152 | Gives `v1/style/rewrites` exactly for the string `rewrite`, and `v1/style/checks` for every other string. |
| StyleApi.UploadFilename | nodes/Markupai/utils/style.api.utils.ts:28 | The document name when it is non-empty, otherwise `content.txt`. |
| StyleApi.PostRequest | nodes/Markupai/utils/style.api.utils.ts:27-45 | A POST to the base URL followed by the path, with a Bearer header. It has four form parts in the order file, dialect, tone, style guide. The file part is `text/plain`, holds the content and carries the upload filename. |
| StyleApi.StatusRequest | nodes/Markupai/utils/style.api.utils.ts:87-94 | A GET on base + path + `/` + the original `workflow_id`, with a Bearer header. |
| StyleApi.Overlay | nodes/Markupai/utils/style.api.utils.ts:100-103 | The body's keys win. `workflow_id` comes from the original only when the body lacks it. No other key of the original survives. |
| StyleApi.FailedMessage | nodes/Markupai/utils/style.api.utils.ts:107 | `Workflow failed: ` followed by the `error` field when it is truthy, otherwise by `Unknown error`. |
| StyleApi.PollFrom | nodes/Markupai/utils/style.api.utils.ts:78-108 | The loop from a given number of GETs never issues fewer. It terminates because the check readings strictly increase. |
| StyleApi.PollResponse | nodes/Markupai/utils/style.api.utils.ts:60-112 | The loop method ends with the outcome and GET count of the recursive definition. Each GET it records is the status request for the original `workflow_id`. |
| StyleApi.NotPolledReturnsAnswer | nodes/Markupai/utils/style.api.utils.ts:73-111 | When the status is not `running` or waiting is off, the input comes back with zero GETs. An initial `failed` is not raised. |
| StyleApi.PollFromSuccess | nodes/Markupai/utils/style.api.utils.ts:78-111 | A successful loop ends with a status that is neither `running` nor `failed`. The result is the overlay of the original by the last body, or the result it started from when no GET was made. |
| StyleApi.PollFromFailure | nodes/Markupai/utils/style.api.utils.ts:79-108 | A failure has one of three causes: the timeout message, the error of the last GET, or the failed message of the last overlay. |
| StyleApi.PollSuccess | nodes/Markupai/utils/style.api.utils.ts:73-111 | The same success characterisation, for the whole `pollResponse`. |
| StyleApi.AlwaysRunningTimesOut | nodes/Markupai/utils/style.api.utils.ts:78-83 | If every answer keeps the status `running`, the loop throws the timeout message `Workflow timeout after {T}ms. Workflow ID: {id}`. |
| StyleApi.TimeoutBoundary | nodes/Markupai/utils/style.api.utils.ts:79 | An elapsed time equal to the timeout does not trip the check; one more millisecond does, before any GET. |
| StyleApi.RunningThenCompleted | nodes/Markupai/utils/style.api.utils.ts:78-104 | If the first answer is `running` and the second `completed`, the result is the second overlay, after two GETs. |
| StyleApi.CompletedOnFirstPoll | nodes/Markupai/utils/style.api.utils.ts:78-104 | If the first answer is `completed`, the result is that answer over the original id, after one GET. |
| StyleApi.FailedOnFirstPoll | nodes/Markupai/utils/style.api.utils.ts:106-108 | A first answer of `failed` throws the failed message after one GET. |
| StyleApi.ClockFloor | nodes/Markupai/utils/style.api.utils.ts:76-79 | If checks are spaced at least `gap` apart, after `first`, check k has seen at least `first + (k-1)·gap` elapsed. |
| StyleApi.PollFromGetsBound | nodes/Markupai/utils/style.api.utils.ts:78-96 | With spaced checks, the elapsed time at the last GET stays within the timeout. |
| StyleApi.PollGetsAtMost | nodes/Markupai/utils/style.api.utils.ts:76-96 | If every check is at least d > 0 after the previous one, at most ⌊T/d⌋ GETs are issued. |
| StyleApi.PollGetsWithSleep | nodes/Markupai/utils/style.api.utils.ts:74-96 | With the 2000 ms sleep as the only spacing, at most ⌊T/2000⌋ + 1 GETs are issued. |
| StyleApi.StyleRequestResult | nodes/Markupai/utils/style.api.utils.ts:114-144 | Exactly one record, with `itemData` the item index. Its json is the POST answer when not waiting, and the poll result when waiting. It fails exactly when the POST fails, or when waiting and the poll fails. |
| StyleApi.StyleRequest | nodes/Markupai/utils/style.api.utils.ts:114-144 | The method agrees with that definition. Its first request is the POST. When waiting, the POST is followed by exactly as many status GETs as the poll made. |
| ApiTypes.ParseStatus | nodes/Markupai/Markupai.api.types.ts:88 | A parsed status names itself back. |
| ApiTypes.StatusRoundTrip | nodes/Markupai/Markupai.api.types.ts:88 | Every status of the union parses back from its name. |
| ApiTypes.PostResponseToObject | nodes/Markupai/Markupai.api.types.ts:62-65 | The JSON form has exactly the keys `status` and `workflow_id`. |
| ApiTypes.PostResponseFromObject | nodes/Markupai/Markupai.api.types.ts:62-65 | An object reads as a response exactly when both keys hold strings. |
| ApiTypes.PostResponseRoundTrip | nodes/Markupai/Markupai.api.types.ts:62-65 | Writing and reading back a response gives it unchanged. |
| ApiTypes.PostResponseReadBack | nodes/Markupai/Markupai.api.types.ts:62-65 | Reading and writing back keeps exactly the two keys of the object. |
| ProcessItem.WaitForCompletion | nodes/Markupai/utils/process.item.ts:28 | `?? true`: false exactly when the option is an explicit false. |
| ProcessItem.PollingTimeout | nodes/Markupai/utils/process.item.ts:29 | `\|\| 60000`: the option when it is present and non-zero, otherwise 60000. The result is never 0. |
| ProcessItem.BuildFormDataDetails | nodes/Markupai/utils/process.item.ts:19-39 | The tone is left out exactly when it equals `None (keep tone unchanged)`, compared case-sensitively. Content, style guide and dialect pass through unchanged, and the two options are defaulted. |
| ProcessItem.OfferedNoneToneIsSent | nodes/Markupai/utils/process.item.ts:34 | The loader's `None (Keep Tone Unchanged)` differs in case from the sentinel, so it is sent as a tone. |
| ProcessItem.WithReport | nodes/Markupai/utils/process.item.ts:67-71 | Adds `html_email`, overwriting any earlier one, and keeps every other key. |
| ProcessItem.StyleRequestCall | nodes/Markupai/utils/process.item.ts:59 | A call binds its receiver to `this`: when the receiver is the executor, the call is the style request. When it is an undefined receiver or a plain object, it fails with a TypeError before any request. |
| ProcessItem.FailedItem | nodes/Markupai/utils/process.item.ts:86-101 | With continue-on-fail, the item becomes `{error: description}` and nothing is thrown. Otherwise it throws the same description together with the item index. |
| ProcessItem.ShapeItem | nodes/Markupai/utils/process.item.ts:61-101 | Every returned item is paired with the item index. A failure is thrown only without continue-on-fail. A failed request, or a report that throws while waiting, becomes the failed item for its error. A report that succeeds is added as `html_email`. |
| ProcessItem.ProcessMarkupaiItemAsWritten | nodes/Markupai/utils/process.item.ts:59 | As written, the call passes the form details as the receiver, so every item ends with the TypeError, shaped as a failure. |
| ProcessItem.AsWrittenNeverReachesService | nodes/Markupai/utils/process.item.ts:59 | The as-written result does not depend on the service at all. With continue-on-fail, it is an item holding only `error`. |
| ProcessItem.AsWrittenLosesAcceptedPost | nodes/Markupai/utils/process.item.ts:59-85 | Take an accepted POST without waiting. The corrected function returns the POST answer; the as-written one returns the error item. |
| ProcessItem.ProcessMarkupaiItem | nodes/Markupai/utils/process.item.ts:41-103 | Every returned item is paired with the item index. A failure is thrown only without continue-on-fail. A failed style request becomes the failed item for its error. So does a report that throws while waiting. |
| ProcessItem.NoWaitReturnsPostAnswer | nodes/Markupai/utils/process.item.ts:76-85 | Without waiting, the item is the POST answer, and the report generator plays no part. |
| ProcessItem.WaitAddsReport | nodes/Markupai/utils/process.item.ts:61-75 | When waiting and the report generator returns a page, the item is the finished poll result with that page added as `html_email`. |
| ProcessItem.FailingReportFailsItem | nodes/Markupai/utils/process.item.ts:61-96 | When waiting and the report generator throws on the finished poll result, the item is the failed item for the generator's error. |
| ProcessItem.CompletedWithoutWorkflowLosesReport | nodes/Markupai/utils/email.generator.ts:217 | A POST answering `running` and a first poll answering `completed`, neither with a `workflow` object, leave a continuing node's item holding only `error`, when the generator throws on its unguarded reads. |
| MarkupAiNode.ItemDetails | nodes/Markupai/Markupai.node.ts:173-188 | The same defaults as `processMarkupaiItem`, but the tone is passed verbatim. |
| MarkupAiNode.SentinelOnlyFilteredPerItem | nodes/Markupai/Markupai.node.ts:181-188 | The two paths build different details only for the sentinel tone, which the loop keeps. |
| MarkupAiNode.ExecuteItem | nodes/Markupai/Markupai.node.ts:181-214 | A record carries index i. It fails exactly when the style request fails or, when waiting, the report generator throws, and then with the generator's error. |
| MarkupAiNode.RunPrefix | nodes/Markupai/Markupai.node.ts:160-215 | Over n items, either n records, each that item's own record, or the error of the first failing item, with every earlier item succeeding. |
| MarkupAiNode.Execute | nodes/Markupai/Markupai.node.ts:155-221 | The loop method equals the batch definition: all records, or the first failure wrapped in a `NodeApiError`, with no partial output. |
| MarkupAiNode.FirstFailureIsFinal | nodes/Markupai/Markupai.node.ts:156-220 | Once item i fails after all earlier ones succeeded, the batch ends with exactly that error. |
| MarkupAiNode.OneRecordPerItem | nodes/Markupai/Markupai.node.ts:160-215 | A finished batch has one record per input item, in order, with record i carrying `itemData` i. |
| MarkupAiNode.BatchSucceedsWhenEveryItemDoes | nodes/Markupai/Markupai.node.ts:156-220 | The batch succeeds if and only if every item does. |
| MarkupAiNode.CompletedWithoutWorkflowAbortsBatch | nodes/Markupai/Markupai.node.ts:192-220 | An item completed on the first poll without a `workflow` object, after earlier items succeeded, ends the whole batch in failure, when the generator throws on its unguarded reads. |
| MarkupAiNode.BatchAgreesWithProcessItem | nodes/Markupai/Markupai.node.ts:181-214 | For any tone other than the sentinel, the loop and the corrected per-item function give the same JSON, the same index and the same error text. |
| LoaderCommon.Strings | nodes/Markupai/utils/load.options.ts:16-28 | A list of names as JSON strings, in order. |
| LoaderCommon.Names | nodes/Markupai/utils/load.options.ts:35-38 | The `name` of each option, in order. |
| LoaderCommon.NameValue | nodes/Markupai/utils/load.options.ts:129-132 | One option per value, in order, with `name == value`. |
| LoaderCommon.NameValueShowsVocabulary | nodes/Markupai/utils/load.options.ts:134-137 | Mapping a built-in list shows exactly its names, in order. |
| LoaderCommon.Iterate | nodes/Markupai/utils/load.options.ts:30-39 | A spread or `map` over an array gives its elements, and over a string gives one element per character. Anything else throws. |
| LoaderCommon.ArrayItems | nodes/Markupai/utils/load.options.ts:129 | `Array.prototype.map` applies only to arrays. |
| LoaderCommon.ConstantsOf | nodes/Markupai/utils/load.options.ts:110-112 | Spreading an object body gives its fields. |
| LoaderCommon.GetConstants | nodes/Markupai/utils/load.options.ts:104-112 | Succeeds exactly on status 200, with the spread body. A refused status or a failed request throws. |
| LoaderCommon.GuideOption | nodes/Markupai/utils/load.options.ts:82-85 | A guide's option has `name` from its `name` and `value` from its `id`. |
| LoaderCommon.StyleGuideOptions | nodes/Markupai/utils/load.options.ts:70-88 | Any failure surfaces as `Error loading style guides`. It succeeds exactly on status 200 with an array body holding no null, giving one option per guide, in order. |
| LoaderCommon.StyleGuidesNameAndId | nodes/Markupai/utils/load.options.ts:82-85 | Guides with a name and an id map to name and value, preserving length and order. |
| MarkupAiLoadOptions.AppendDefaultTone | nodes/Markupai/utils/load.options.ts:30-32 | `None (Keep Tone Unchanged)` is put in front of the tones, which follow unchanged. |
| MarkupAiLoadOptions.MapTones | nodes/Markupai/utils/load.options.ts:34-39 | Has length \|tones\|+1. The first option is the None entry, and the tones follow in order with `name == value`. |
| MarkupAiLoadOptions.StyleGuidesRequest | nodes/Markupai/utils/load.options.ts:61-68 | A GET on the base URL followed by `v1/style-guides`, with a Bearer header. |
| MarkupAiLoadOptions.ConstantsRequest | nodes/Markupai/utils/load.options.ts:95-102 | A GET on the base URL followed by `v1/internal/constants`. |
| MarkupAiLoadOptions.LoadTones | nodes/Markupai/utils/load.options.ts:115-123 | Never fails. Opens with the None entry, then the service's tones, or the default tones on any failure. |
| MarkupAiLoadOptions.LoadTonesFallback | nodes/Markupai/utils/load.options.ts:115-123 | The fallback has 9 entries: None, then the 8 default tones in order. |
| MarkupAiLoadOptions.RefusedStatusFallsBack | nodes/Markupai/utils/load.options.ts:104-123 | Any status other than 200 leads to the fallback tones. |
| MarkupAiLoadOptions.LoadDialects | nodes/Markupai/utils/load.options.ts:125-139 | One option per dialect from the service, in order with `name == value`, or the defaults on failure. |
| MarkupAiLoadOptions.LoadDialectsFallback | nodes/Markupai/utils/load.options.ts:125-139 | The fallback is exactly the 3 default dialects, in order. |
| MarkupAiLoadOptions.LoadStyleGuides | nodes/Markupai/utils/load.options.ts:54-89 | Requests `v1/style-guides`. Any failure is `Error loading style guides`. Success needs status 200 and an array body, and gives one option per guide. |
| AcrolinxLoadOptions.StyleGuidesRequest | nodes/Acrolinx/utils/load.options.ts:58-65 | A GET on the raw base URL followed by `/v1/style-guides`. |
| AcrolinxLoadOptions.ConstantsRequest | nodes/Acrolinx/utils/load.options.ts:92-99 | A GET on the raw base URL followed by `/v1/internal/constants`. |
| AcrolinxLoadOptions.RequestsMatchOtherRevision | nodes/Acrolinx/utils/load.options.ts:58-99 | These are the newer revision's requests for the base URL with a `/` appended. |
| AcrolinxLoadOptions.LoadTones | nodes/Acrolinx/utils/load.options.ts:113-127 | One option per service tone with `name == value` and no None entry, or the defaults on failure. |
| AcrolinxLoadOptions.LoadTonesFallback | nodes/Acrolinx/utils/load.options.ts:113-127 | The fallback is exactly the 8 default tones, in order. |
| AcrolinxLoadOptions.NewerRevisionAddsNoneTone | nodes/Acrolinx/utils/load.options.ts:113-120 | On the same successful answer, the newer revision's list is this one with the None entry in front. |
| AcrolinxLoadOptions.NoneThenNameValue | nodes/Acrolinx/utils/load.options.ts:117-120 | The newer revision's tone mapping is this revision's mapping with the None entry in front. |
| AcrolinxLoadOptions.LoadDialects | nodes/Acrolinx/utils/load.options.ts:129-143 | One option per dialect with `name == value`, or the defaults on failure. |
| AcrolinxLoadOptions.LoadDialectsFallback | nodes/Acrolinx/utils/load.options.ts:129-143 | The fallback is exactly the 5 default dialects, in order. |
| AcrolinxLoadOptions.LoadStyleGuides | nodes/Acrolinx/utils/load.options.ts:51-86 | Requests `/v1/style-guides`. Any failure is `Error loading style guides`, and success gives one option per guide. |
| ReportCommon.ScoreColor | nodes/Markupai/utils/email.generator.ts:10-18 | One of the three colours. Red exactly below 60, yellow exactly from 60 to below 80, green exactly from 80 on. |
| ReportCommon.ScoreColorMonotone | nodes/Markupai/utils/email.generator.ts:10-18 | A higher score never gets a worse band. |
| ReportCommon.ScoreColorBoundaries | nodes/Acrolinx/utils/email.generator.ts:10-18 | 59 is red, 60 yellow, 79 yellow and 80 green. |
| ReportCommon.OrZero | nodes/Markupai/utils/email.generator.ts:100-105 | `x \|\| 0`: the figure, or 0 when it is missing. |
| ReportCommon.ShowText | nodes/Markupai/utils/email.generator.ts:58-70 | A missing text prints as `undefined`. |
| ReportCommon.ShowNumber | nodes/Markupai/utils/email.generator.ts:80-82 | A missing number prints as `undefined`. |
| ReportCommon.DefaultedTile | nodes/Markupai/utils/email.generator.ts:100-135 | A missing sub-score is coloured and shown as 0. A present one gets its own colour and its number. |
| ReportCommon.DefaultedTileReadsBack | nodes/Markupai/utils/email.generator.ts:100-135 | The number shown in a tile reads back as the figure, or as 0. |
| MarkupAiEmail.Figure | nodes/Markupai/utils/email.generator.ts:76-160 | `result.original?.scores?.x` is undefined when the original or its scores are missing. |
| MarkupAiEmail.IssueCount | nodes/Markupai/utils/email.generator.ts:173-175 | The number of issues, or 0 when they are missing. |
| MarkupAiEmail.ConfigText | nodes/Markupai/utils/email.generator.ts:207-215 | A missing configuration or setting prints as `undefined`. |
| MarkupAiEmail.ReportFigures | nodes/Markupai/utils/email.generator.ts:58-218 | Without scores, every tile is red 0, the statistics are 0, and the quality score is red and printed `undefined`. The total of issues is the issue count. A missing workflow id prints as an empty string. |
| MarkupAiEmail.TotalIssuesReadsBack | nodes/Markupai/utils/email.generator.ts:173-175 | The printed total is all digits and reads back as the issue count. |
| MarkupAiEmail.PresentScoresShown | nodes/Markupai/utils/email.generator.ts:76-135 | With scores present, each tile shows its own sub-score, defaulted to 0. The quality colour and number are those of the quality score. |
| MarkupAiEmail.PresentConfigShown | nodes/Markupai/utils/email.generator.ts:207-215 | With a configuration present, each setting prints as it is. |
| AcrolinxEmail.Figure | nodes/Acrolinx/utils/email.generator.ts:76-160 | `result.scores?.x` is undefined when the scores are missing. |
| AcrolinxEmail.IssueCount | nodes/Acrolinx/utils/email.generator.ts:173-175 | `result.issues.length`, or 0 when they are missing. |
| AcrolinxEmail.ReportFigures | nodes/Acrolinx/utils/email.generator.ts:58-222 | Without scores, every tile is red 0 and the quality score is red and printed `undefined`. The total of issues is the issue count. The workflow id prints as it is. |
| AcrolinxEmail.PresentScoresShown | nodes/Acrolinx/utils/email.generator.ts:76-160 | The clarity, grammar, style, terminology and tone tiles show their own figures, defaulted to 0, as do the word count and quality colour. |
| AcrolinxEmail.MissingQualityIsRed | nodes/Acrolinx/utils/email.generator.ts:76-82 | A missing quality score is coloured as 0, red, and printed `undefined`. |
| AcrolinxEmail.TotalIssuesReadsBack | nodes/Acrolinx/utils/email.generator.ts:173-175 | The printed total reads back as the issue count. |
| CommonUtils.GetBaseUrlString | utils/common.utils.ts:6-17 | The result is never blank. A non-blank override is returned verbatim, without trimming. When the override is unset or blank, the result is `https://api.markup.ai/`. |
| CommonUtils.BaseUrlStable | utils/common.utils.ts:11-16 | Feeding the result back as the override gives the same result. |
| CommonUtils.WhitespaceOverrideIgnored | utils/common.utils.ts:11 | An override made only of white space gives the production URL. |
| CommonUtils.PaddedOverrideKept | utils/common.utils.ts:11-12 | An override with padding around a URL is returned with the padding. |
| Json.Spread | nodes/Markupai/utils/style.api.utils.ts:100-103 | An object spread: every key of either object, with the later object's value winning. |
| Json.DecimalRoundTrip | nodes/Markupai/utils/email.generator.ts:173-175 | The decimal text of a number reads back as that number. |
| Text.TrimStartSkipsSpace | nodes/Markupai/utils/filename.extension.resolver.ts:3 | `trimStart()` removes any leading white space. |
| Text.LowerTrimStart | nodes/Markupai/utils/filename.extension.resolver.ts:15 | Lower-casing commutes with `trimStart()`. |

## Left out

- Real I/O is not modelled. The HTTP calls, `FormData`, `Buffer`, JSON parsing and
  stringifying, and the 2000 ms `setTimeout` sleep are oracles or not modelled at all. The
  clock is a function whose k-th reading is taken at the k-th check of the polling loop.
- StyleApi.PollResponse assumes that the check readings strictly increase (`ChecksAdvance`).
  The source has no such guarantee, but a clock that stands still would make it wait forever.
- Credentials are not modelled: `getApiKey`, `getBaseUrl` and the `new URL(...)` normalisation
  of the base URL. The base URL and the API key are parameters.
- The multipart boundary headers that `formData.getHeaders()` adds are not modelled, nor what
  `form-data` does when the tone part is `undefined`. The model records that the tone part is
  missing.
- JSON is simplified:
  - key order is not kept;
  - a key whose value is `undefined` is an absent key;
  - numbers are integers, with no NaN and no floating point;
  - letter case maps only the ASCII letters;
  - strings are sequences of code points, not UTF-16 units.
- In the option loaders, what a spread of a string or array body puts under its index keys is
  not modelled. Such a body yields no tones.
- getConstants' thrown message, the parsed `error` field of a refused answer, is not modelled.
  Every loader catches that error and falls back, so only the fact of the failure matters.
- `returnJsonArray` is not part of this model: the batch returns its records as they are.
- MarkupAiNode.Execute discards the HTTP requests of each item. Their shape is stated by
  StyleApi.StyleRequest.
- The e-mail generators' HTML template, `categorizeIssues` and the issue lists are left out.
  The report is a function parameter of the per-item code that returns a page or an error.
  The model states the figures the template prints, from a typed response.
- The step from the JSON a report gets to the typed response is not modelled.
  `ProcessItem.UnguardedReadThrows` is a sufficient condition for the generator to throw, not a
  necessary one. For example, a `quality` object without `grammar` also throws in the source.
  The lemmas that use it take it as a premise about the generator.
- The Acrolinx response type is not part of this model. Its shape is inferred from the fields
  the Acrolinx generator reads.
- ProcessItem.StyleRequestCall: the TypeError text follows V8's wording for the receiver that
  `getApiKey` dereferences. The model fixes one string per receiver kind and does not claim more.
- The concrete test strings of the sniffer, such as the DOCTYPE of a DITA topic, are not
  evaluated. Their general forms are proved instead: FilenameResolver.DoctypeNamingDitaIsDita,
  FilenameResolver.XmlDeclarationThenRootIsDita, FilenameResolver.BodyTagIsHtml,
  FilenameResolver.HeadingIsMarkdown and FilenameResolver.PlainHeadingIsMarkdown.
- The node descriptions, the credentials classes, the Acrolinx node and its SDK wrapper are not
  modelled. They hold no logic of their own beyond the fallbacks already modelled here.

## Findings

| source | as written | input that shows it | evidently intended | confidence | as-written member | corrected member |
|---|---|---|---|---|---|---|
| nodes/Markupai/utils/process.item.ts:59 | `styleRequest.call(this, formDataDetails, getPath(operation), itemIndex)` makes `formDataDetails` the executor and shifts every argument one place. The style request then fails with a TypeError before any HTTP request. | Any item. For example, one with `waitForCompletion: false` whose POST the service accepts comes back as `{error: "...getCredentials is not a function"}` instead of the POST answer. | `styleRequest(this, formDataDetails, getPath(operation), itemIndex)`, as `Markupai.node.ts:192` calls it | high; not executed | ProcessItem.ProcessMarkupaiItemAsWritten, ProcessItem.AsWrittenLosesAcceptedPost | ProcessItem.ProcessMarkupaiItem |

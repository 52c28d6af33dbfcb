/** The figures the Markup AI report (`nodes/Markupai/utils/email.generator.ts`) prints, each as
    the text that ends up in the page, and the colour of each score tile. Every figure is read
    through `result.original?.scores?`, so a response without the original or its scores
    reaches the defaults. */
module MarkupAiEmail {
  import opened Wrappers
  import opened Json
  import opened ApiTypes
  import opened ReportCommon

  datatype Figures = Figures(
    title: string,
    owner: string,
    link: string,
    qualityColor: string,
    qualityShown: string,
    grammar: Tile,
    consistency: Tile,
    terminology: Tile,
    clarity: Tile,
    tone: Tile,
    wordsAnalyzed: string,
    totalSentences: string,
    averageSentenceLength: string,
    totalIssues: string,
    styleGuide: string,
    dialect: string,
    configTone: string,
    workflowId: string)

  /** `result.original?.scores` */
  function ScoresOf(result: GetStyleRewriteResponse): Option<Scores> {
    if result.original.Some? then result.original.value.scores else None
  }

  /** The figures of the scores the report prints. */
  datatype Metric =
    | QualityScore | GrammarScore | ConsistencyScore | TerminologyScore | ClarityScore | ToneScore
    | WordCount | SentenceCount | AverageSentenceLength

  function Read(s: Scores, m: Metric): Option<int> {
    match m
    case QualityScore => s.quality.score
    case GrammarScore => s.quality.grammar.score
    case ConsistencyScore => s.quality.consistency.score
    case TerminologyScore => s.quality.terminology.score
    case ClarityScore => s.analysis.clarity.score
    case ToneScore => s.analysis.tone.score
    case WordCount => s.analysis.clarity.wordCount
    case SentenceCount => s.analysis.clarity.sentenceCount
    case AverageSentenceLength => s.analysis.clarity.averageSentenceLength
  }

  /** `result.original?.scores?.<figure>`: `undefined` when the scores are missing. */
  function Figure(result: GetStyleRewriteResponse, m: Metric): (r: Option<int>)
    ensures ScoresOf(result).None? ==> r.None?
    ensures ScoresOf(result).Some? ==> r == Read(ScoresOf(result).value, m)
  {
    match ScoresOf(result)
    case None => None
    case Some(s) => Read(s, m)
  }

  /** `result.original?.issues?.length || 0` */
  function IssueCount(result: GetStyleRewriteResponse): (r: nat)
    ensures result.original.Some? && result.original.value.issues.Some? ==> r == |result.original.value.issues.value|
    ensures result.original.None? || result.original.value.issues.None? ==> r == 0
  {
    if result.original.Some? && result.original.value.issues.Some? then |result.original.value.issues.value| else 0
  }

  /** The settings of the configuration the report prints. */
  datatype Setting = StyleGuideType | DialectSetting | ToneSetting

  function Choose(c: Config, k: Setting): Option<string> {
    match k
    case StyleGuideType => c.styleGuide.styleGuideType
    case DialectSetting => c.dialect
    case ToneSetting => c.tone
  }

  /** `result.config?.<setting>`, printed. */
  function ConfigText(result: GetStyleRewriteResponse, k: Setting): (r: string)
    ensures result.config.None? ==> r == "undefined"
    ensures result.config.Some? ==> r == ShowText(Choose(result.config.value, k))
  {
    if result.config.Some? then ShowText(Choose(result.config.value, k)) else "undefined"
  }

  /** The figures of the report. Every sub-score tile and the three statistics default to 0;
      the quality score is coloured as 0 when missing but printed as it is, `undefined`; the
      configuration prints `undefined` for what is missing; the workflow id prints as nothing. */
  function ReportFigures(result: GetStyleRewriteResponse, input: ExtendedInputData): (f: Figures)
    ensures ScoresOf(result).None? ==>
      && f.qualityColor == Red && f.qualityShown == "undefined"
      && f.grammar == f.consistency == f.terminology == f.clarity == f.tone == Tile(Red, "0")
      && f.wordsAnalyzed == f.totalSentences == f.averageSentenceLength == "0"
    ensures f.totalIssues == NatToDecimal(IssueCount(result))
    ensures result.config.None? ==> f.styleGuide == f.dialect == f.configTone == "undefined"
    ensures result.workflow.id.Some? ==> f.workflowId == result.workflow.id.value
    ensures result.workflow.id.None? ==> f.workflowId == ""
  {
    Figures(
      ShowText(input.documentName),
      ShowText(input.documentOwner),
      ShowText(input.documentLink),
      ScoreColor(OrZero(Figure(result, QualityScore))),
      ShowNumber(Figure(result, QualityScore)),
      DefaultedTile(Figure(result, GrammarScore)),
      DefaultedTile(Figure(result, ConsistencyScore)),
      DefaultedTile(Figure(result, TerminologyScore)),
      DefaultedTile(Figure(result, ClarityScore)),
      DefaultedTile(Figure(result, ToneScore)),
      IntToDecimal(OrZero(Figure(result, WordCount))),
      IntToDecimal(OrZero(Figure(result, SentenceCount))),
      IntToDecimal(OrZero(Figure(result, AverageSentenceLength))),
      IntToDecimal(IssueCount(result)),
      ConfigText(result, StyleGuideType),
      ConfigText(result, DialectSetting),
      ConfigText(result, ToneSetting),
      if result.workflow.id.Some? && result.workflow.id.value != "" then result.workflow.id.value else "")
  }

  /** The total printed reads back as the number of issues, 0 when they are missing. */
  lemma TotalIssuesReadsBack(result: GetStyleRewriteResponse, input: ExtendedInputData)
    ensures var shown := ReportFigures(result, input).totalIssues;
      (forall i :: 0 <= i < |shown| ==> '0' <= shown[i] <= '9') && DecimalValue(shown) == IssueCount(result)
  {
    DecimalRoundTrip(IssueCount(result));
  }

  /** With scores present, each of the five sub-score tiles shows its own figure (0 when it is
      missing) in the colour of that figure, and the quality score is coloured as its value. */
  lemma PresentScoresShown(result: GetStyleRewriteResponse, input: ExtendedInputData)
    requires ScoresOf(result).Some?
    ensures var f, s := ReportFigures(result, input), ScoresOf(result).value;
      && f.grammar == DefaultedTile(s.quality.grammar.score)
      && f.consistency == DefaultedTile(s.quality.consistency.score)
      && f.terminology == DefaultedTile(s.quality.terminology.score)
      && f.clarity == DefaultedTile(s.analysis.clarity.score)
      && f.tone == DefaultedTile(s.analysis.tone.score)
      && f.qualityColor == ScoreColor(OrZero(s.quality.score))
      && f.qualityShown == ShowNumber(s.quality.score)
  {
  }

  /** With a configuration present, each setting prints as it is, `undefined` when missing. */
  lemma PresentConfigShown(result: GetStyleRewriteResponse, input: ExtendedInputData)
    requires result.config.Some?
    ensures var f, c := ReportFigures(result, input), result.config.value;
      && f.styleGuide == ShowText(c.styleGuide.styleGuideType)
      && f.dialect == ShowText(c.dialect)
      && f.configTone == ShowText(c.tone)
  {
  }
}

/** The figures the Acrolinx report (`nodes/Acrolinx/utils/email.generator.ts`) prints. Its
    response type is not part of this model; the shape below holds just the fields the
    generator reads, as it reads them: scores and issues may be missing, the check options and
    the workflow id are read without a guard. */
module AcrolinxEmail {
  import opened Wrappers
  import opened Json
  import opened ReportCommon

  datatype ClarityScores = ClarityScores(
    score: Option<int>,
    wordCount: Option<int>,
    sentenceCount: Option<int>,
    averageSentenceLength: Option<int>)

  datatype Scores = Scores(
    quality: Option<int>,
    clarity: ClarityScores,
    grammar: Option<int>,
    styleGuide: Option<int>,
    terminology: Option<int>,
    tone: Option<int>)

  datatype CheckOptions = CheckOptions(styleGuideType: Option<string>, dialect: Option<string>, tone: Option<string>)

  datatype CheckResult = CheckResult(
    scores: Option<Scores>,
    issues: Option<seq<Value>>,
    checkOptions: CheckOptions,
    workflowId: Option<string>)

  datatype Figures = Figures(
    title: string,
    owner: string,
    link: string,
    qualityColor: string,
    qualityShown: string,
    clarity: Tile,
    grammar: Tile,
    style: Tile,
    terminology: Tile,
    tone: Tile,
    wordsAnalyzed: string,
    totalSentences: string,
    averageSentenceLength: string,
    totalIssues: string,
    styleGuide: string,
    dialect: string,
    configTone: string,
    workflowId: string)

  /** The figures of the scores the report prints. */
  datatype Metric =
    | QualityScore | ClarityScore | GrammarScore | StyleGuideScore | TerminologyScore | ToneScore
    | WordCount | SentenceCount | AverageSentenceLength

  function Read(s: Scores, m: Metric): Option<int> {
    match m
    case QualityScore => s.quality
    case ClarityScore => s.clarity.score
    case GrammarScore => s.grammar
    case StyleGuideScore => s.styleGuide
    case TerminologyScore => s.terminology
    case ToneScore => s.tone
    case WordCount => s.clarity.wordCount
    case SentenceCount => s.clarity.sentenceCount
    case AverageSentenceLength => s.clarity.averageSentenceLength
  }

  /** `result.scores?.<figure>`: `undefined` when the scores are missing. */
  function Figure(result: CheckResult, m: Metric): (r: Option<int>)
    ensures result.scores.None? ==> r.None?
    ensures result.scores.Some? ==> r == Read(result.scores.value, m)
  {
    match result.scores
    case None => None
    case Some(s) => Read(s, m)
  }

  /** `result.issues?.length || 0` */
  function IssueCount(result: CheckResult): (r: nat)
    ensures result.issues.Some? ==> r == |result.issues.value|
    ensures result.issues.None? ==> r == 0
  {
    if result.issues.Some? then |result.issues.value| else 0
  }

  /** The figures of the report. Unlike the Markup AI report, the workflow id is printed as it
      is, `undefined` when missing. */
  function ReportFigures(result: CheckResult, input: ExtendedInputData): (f: Figures)
    ensures result.scores.None? ==>
      && f.qualityColor == Red && f.qualityShown == "undefined"
      && f.clarity == f.grammar == f.style == f.terminology == f.tone == Tile(Red, "0")
      && f.wordsAnalyzed == f.totalSentences == f.averageSentenceLength == "0"
    ensures f.totalIssues == NatToDecimal(IssueCount(result))
    ensures f.workflowId == ShowText(result.workflowId)
  {
    Figures(
      ShowText(input.documentName),
      ShowText(input.documentOwner),
      ShowText(input.documentLink),
      ScoreColor(OrZero(Figure(result, QualityScore))),
      ShowNumber(Figure(result, QualityScore)),
      DefaultedTile(Figure(result, ClarityScore)),
      DefaultedTile(Figure(result, GrammarScore)),
      DefaultedTile(Figure(result, StyleGuideScore)),
      DefaultedTile(Figure(result, TerminologyScore)),
      DefaultedTile(Figure(result, ToneScore)),
      IntToDecimal(OrZero(Figure(result, WordCount))),
      IntToDecimal(OrZero(Figure(result, SentenceCount))),
      IntToDecimal(OrZero(Figure(result, AverageSentenceLength))),
      IntToDecimal(IssueCount(result)),
      ShowText(result.checkOptions.styleGuideType),
      ShowText(result.checkOptions.dialect),
      ShowText(result.checkOptions.tone),
      ShowText(result.workflowId))
  }

  /** With scores present, each of the five sub-score tiles shows its own figure (0 when it is
      missing) in the colour of that figure, and so do the statistics. */
  lemma PresentScoresShown(result: CheckResult, input: ExtendedInputData)
    requires result.scores.Some?
    ensures var f, s := ReportFigures(result, input), result.scores.value;
      && f.clarity == DefaultedTile(s.clarity.score)
      && f.grammar == DefaultedTile(s.grammar)
      && f.style == DefaultedTile(s.styleGuide)
      && f.terminology == DefaultedTile(s.terminology)
      && f.tone == DefaultedTile(s.tone)
      && f.qualityColor == ScoreColor(OrZero(s.quality))
      && f.wordsAnalyzed == IntToDecimal(OrZero(s.clarity.wordCount))
  {
    // Not needed for soundness; it keeps the solver's search short.
    assert Figure(result, WordCount) == result.scores.value.clarity.wordCount;
  }

  /** A missing quality score is coloured red, as a 0 would be. */
  lemma MissingQualityIsRed(result: CheckResult, input: ExtendedInputData)
    requires result.scores.None? || result.scores.value.quality.None?
    ensures ReportFigures(result, input).qualityColor == Red
    ensures ReportFigures(result, input).qualityShown == "undefined"
  {
  }

  /** The total printed reads back as the number of issues, 0 when they are missing. */
  lemma TotalIssuesReadsBack(result: CheckResult, input: ExtendedInputData)
    ensures var shown := ReportFigures(result, input).totalIssues;
      (forall i :: 0 <= i < |shown| ==> '0' <= shown[i] <= '9') && DecimalValue(shown) == IssueCount(result)
  {
    DecimalRoundTrip(IssueCount(result));
  }
}

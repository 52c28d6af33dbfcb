/** The response shapes of the style API that the node reads (`Markupai.api.types.ts`). */
module ApiTypes {
  import opened Wrappers
  import opened Json

  /** The values of the `status` field of a style workflow. */
  datatype WorkflowStatus = Running | Completed | Failed

  function StatusName(s: WorkflowStatus): string {
    match s
    case Running => "running"
    case Completed => "completed"
    case Failed => "failed"
  }

  function ParseStatus(name: string): (r: Option<WorkflowStatus>)
    ensures r.Some? ==> StatusName(r.value) == name
  {
    if name == "running" then Some(Running)
    else if name == "completed" then Some(Completed)
    else if name == "failed" then Some(Failed)
    else None
  }

  /** Every status has its own name, and reading the name back gives the status. */
  lemma StatusRoundTrip(s: WorkflowStatus)
    ensures ParseStatus(StatusName(s)) == Some(s)
  {
  }

  /** The answer to the submitting POST. */
  datatype PostStyleRewriteResponse = PostStyleRewriteResponse(status: string, workflowId: string)

  function PostResponseToObject(p: PostStyleRewriteResponse): (r: Object)
    ensures r.Keys == {"status", "workflow_id"}
    ensures r["status"] == Str(p.status) && r["workflow_id"] == Str(p.workflowId)
  {
    map["status" := Str(p.status), "workflow_id" := Str(p.workflowId)]
  }

  function PostResponseFromObject(o: Object): (r: Option<PostStyleRewriteResponse>)
    ensures r.Some? <==> "status" in o && o["status"].Str? && "workflow_id" in o && o["workflow_id"].Str?
  {
    if "status" in o && o["status"].Str? && "workflow_id" in o && o["workflow_id"].Str? then
      Some(PostStyleRewriteResponse(o["status"].s, o["workflow_id"].s))
    else
      None
  }

  lemma PostResponseRoundTrip(p: PostStyleRewriteResponse)
    ensures PostResponseFromObject(PostResponseToObject(p)) == Some(p)
  {
  }

  /** Reading a response keeps exactly its two fields: writing it back gives the object cut down to them. */
  lemma PostResponseReadBack(o: Object)
    requires PostResponseFromObject(o).Some?
    ensures PostResponseToObject(PostResponseFromObject(o).value) == o - (o.Keys - {"status", "workflow_id"})
  {
  }

  datatype Issue = Issue(category: string, subcategory: string, original: string, suggestion: string, startIndex: int)

  /** A sub-score of the quality group; any figure may be missing from a response. */
  datatype SubScore = SubScore(score: Option<int>, issues: Option<int>)

  datatype QualityScores = QualityScores(score: Option<int>, grammar: SubScore, consistency: SubScore, terminology: SubScore)

  datatype ClarityScores = ClarityScores(
    score: Option<int>,
    wordCount: Option<int>,
    sentenceCount: Option<int>,
    averageSentenceLength: Option<int>)

  datatype ToneScores = ToneScores(score: Option<int>)

  datatype AnalysisScores = AnalysisScores(clarity: ClarityScores, tone: ToneScores)

  datatype Scores = Scores(quality: QualityScores, analysis: AnalysisScores)

  datatype Original = Original(issues: Option<seq<Issue>>, scores: Option<Scores>)

  datatype Rewrite = Rewrite(text: string, scores: Scores)

  datatype StyleGuideRef = StyleGuideRef(styleGuideType: Option<string>, styleGuideId: Option<string>)

  datatype Config = Config(dialect: Option<string>, styleGuide: StyleGuideRef, tone: Option<string>)

  datatype Workflow = Workflow(id: Option<string>, status: WorkflowStatus)

  /** A finished (or failed) workflow as the report generator sees it. */
  datatype GetStyleRewriteResponse = GetStyleRewriteResponse(
    config: Option<Config>,
    original: Option<Original>,
    rewrite: Option<Rewrite>,
    workflow: Workflow)
}

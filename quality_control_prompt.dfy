/**
 * The quality-control prompt: every earlier stage's output, with the
 * recommended tools summarised from the first three entries.
 */
module QualityControlPrompt {
  import opened Wrappers
  import opened Text
  import opened JsonData
  import opened DataModels
  import opened PromptParts

  datatype QualityControlPrompt = QualityControlPrompt(
    profile: ProfileSlots,
    problemStatement: string,
    mainResearchQuestion: string,
    secondaryQuestions: string,
    keyVariables: string,
    generalObjective: string,
    specificObjectives: string,
    recommendedMethodology: string,
    methodologyType: string,
    methodologySkills: string,
    collectionTechniques: string,
    recommendedToolsSummary: string,
    estimatedSampleSize: string,
    dataCollectionTimeline: string)

  const ToolsShown := 3
  const NotSpecified := "Not specified"

  /** `d.get(k, default)` rendered with `str()`. */
  function ShowGet(d: Fields, k: string, default: string): (r: string)
    ensures !HasKey(d, k) ==> r == default
    ensures HasKey(d, k) ==> r == Show(Get(d, k).value)
  {
    match Get(d, k)
    case Some(v) => Show(v)
    case None => default
  }

  /** One tool as "name (accessibility)", with "Unknown" and "unknown" for missing keys. */
  function ToolLabel(tool: Fields): (r: string)
    ensures StartsWith(r, ShowGet(tool, "name", "Unknown") + " (")
    ensures EndsWith(r, ShowGet(tool, "accessibility", "unknown") + ")")
  {
    var head := ShowGet(tool, "name", "Unknown") + " (";
    var tail := ShowGet(tool, "accessibility", "unknown") + ")";
    var r := head + tail;
    assert r[..|head|] == head;
    assert r[|r| - |tail|..] == tail;
    r
  }

  /** The labels of the tools the summary covers: the first three, in order. */
  function ShownLabels(tools: seq<Fields>): (r: seq<string>)
    ensures |r| == if |tools| < ToolsShown then |tools| else ToolsShown
    ensures forall i :: 0 <= i < |r| ==> r[i] == ToolLabel(tools[i])
  {
    var n := if |tools| < ToolsShown then |tools| else ToolsShown;
    seq(n, i requires 0 <= i < n => ToolLabel(tools[i]))
  }

  /** The tools loop: at most three labels, joined by ", ", or "None". */
  method SummarizeTools(tools: seq<Fields>) returns (summary: string)
    ensures tools == [] ==> summary == NoneText
    ensures tools != [] ==> summary == Join(", ", ShownLabels(tools))
    ensures forall i :: 0 <= i < |tools| && i < ToolsShown ==> Contains(summary, ToolLabel(tools[i]))
  {
    var first := if |tools| < ToolsShown then tools else tools[..ToolsShown];
    var labels: seq<string> := [];
    var i := 0;
    while i < |first|
      invariant 0 <= i <= |first|
      invariant labels == seq(i, j requires 0 <= j < i => ToolLabel(first[j]))
    {
      labels := labels + [ToolLabel(first[i])];
      i := i + 1;
    }
    assert labels == ShownLabels(tools);
    summary := JoinOr(", ", labels, NoneText);
  }

  /** The slots of the quality-control prompt, with the tools summarised as the loop below does. */
  function QualityControlSlots(p: UserProfile, d: ProblemDefinition, o: ResearchObjectives,
                               m: MethodologyRecommendation, c: DataCollectionPlan): QualityControlPrompt
  {
    QualityControlPrompt(
      ProfileSlotsOf(p, NoneText),
      d.problemStatement,
      d.mainResearchQuestion,
      JoinOr("; ", d.secondaryQuestions, NoneText),
      JoinOr(", ", d.keyVariables, NoneText),
      o.generalObjective,
      JoinOr("; ", o.specificObjectives, NoneText),
      m.recommendedMethodology,
      m.methodologyType,
      JoinOr(", ", m.requiredSkills, NoneText),
      JoinOr(", ", c.collectionTechniques, NoneText),
      JoinOr(", ", ShownLabels(c.recommendedTools), NoneText),
      c.estimatedSampleSize,
      ShowGet(c.timelineBreakdown, "total_duration", NotSpecified))
  }

  /** `format_prompt_for_quality_control(user_profile, problem_definition, research_objectives, methodology, data_collection)`. */
  method FormatPromptForQualityControl(p: UserProfile, d: ProblemDefinition, o: ResearchObjectives,
                                       m: MethodologyRecommendation, c: DataCollectionPlan)
    returns (r: QualityControlPrompt)
    // Unlike the other prompts, an empty skill list shows "None" here.
    ensures r.profile == ProfileSlotsOf(p, NoneText)
    ensures r.problemStatement == d.problemStatement
    ensures r.mainResearchQuestion == d.mainResearchQuestion
    ensures r.secondaryQuestions == JoinOr("; ", d.secondaryQuestions, NoneText)
    ensures r.keyVariables == JoinOr(", ", d.keyVariables, NoneText)
    ensures r.generalObjective == o.generalObjective
    ensures r.specificObjectives == JoinOr("; ", o.specificObjectives, NoneText)
    ensures r.recommendedMethodology == m.recommendedMethodology
    ensures r.methodologyType == m.methodologyType
    ensures r.methodologySkills == JoinOr(", ", m.requiredSkills, NoneText)
    ensures r.collectionTechniques == JoinOr(", ", c.collectionTechniques, NoneText)
    ensures c.recommendedTools == [] ==> r.recommendedToolsSummary == NoneText
    ensures c.recommendedTools != [] ==> r.recommendedToolsSummary == Join(", ", ShownLabels(c.recommendedTools))
    ensures r.estimatedSampleSize == c.estimatedSampleSize
    ensures r.dataCollectionTimeline == ShowGet(c.timelineBreakdown, "total_duration", NotSpecified)
    ensures r == QualityControlSlots(p, d, o, m, c)
  {
    var tools := SummarizeTools(c.recommendedTools);
    r := QualityControlPrompt(
      ProfileSlotsOf(p, NoneText),
      d.problemStatement,
      d.mainResearchQuestion,
      JoinOr("; ", d.secondaryQuestions, NoneText),
      JoinOr(", ", d.keyVariables, NoneText),
      o.generalObjective,
      JoinOr("; ", o.specificObjectives, NoneText),
      m.recommendedMethodology,
      m.methodologyType,
      JoinOr(", ", m.requiredSkills, NoneText),
      JoinOr(", ", c.collectionTechniques, NoneText),
      tools,
      c.estimatedSampleSize,
      ShowGet(c.timelineBreakdown, "total_duration", NotSpecified));
  }
}

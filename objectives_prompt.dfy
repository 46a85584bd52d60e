/**
 * The objectives prompt: the profile slots and the problem definition, with
 * secondary questions joined by "; " and key variables by ", ".
 */
module ObjectivesPrompt {
  import opened Text
  import opened DataModels
  import opened PromptParts

  datatype ObjectivesPrompt = ObjectivesPrompt(
    profile: ProfileSlots,
    problemStatement: string,
    mainResearchQuestion: string,
    secondaryQuestions: string,
    keyVariables: string)

  /** `format_prompt_for_objectives(user_profile, problem_definition)`. */
  function FormatPromptForObjectives(p: UserProfile, d: ProblemDefinition): (r: ObjectivesPrompt)
    ensures r.profile == ProfileSlotsOf(p, NoneSpecified)
    ensures r.problemStatement == d.problemStatement
    ensures r.mainResearchQuestion == d.mainResearchQuestion
    ensures d.secondaryQuestions == [] ==> r.secondaryQuestions == NoneText
    ensures d.secondaryQuestions != [] ==> r.secondaryQuestions == Join("; ", d.secondaryQuestions)
    ensures d.keyVariables == [] ==> r.keyVariables == NoneText
    ensures d.keyVariables != [] ==> r.keyVariables == Join(", ", d.keyVariables)
    ensures forall k :: 0 <= k < |d.secondaryQuestions| ==> Contains(r.secondaryQuestions, d.secondaryQuestions[k])
    ensures forall k :: 0 <= k < |d.keyVariables| ==> Contains(r.keyVariables, d.keyVariables[k])
  {
    ObjectivesPrompt(
      ProfileSlotsOf(p, NoneSpecified),
      d.problemStatement,
      d.mainResearchQuestion,
      JoinOr("; ", d.secondaryQuestions, NoneText),
      JoinOr(", ", d.keyVariables, NoneText))
  }
}

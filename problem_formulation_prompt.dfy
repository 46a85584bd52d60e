/**
 * The problem-formulation prompt: the profile slots, the additional
 * context, and, when the stage is re-run with feedback, a refinement block
 * quoting the feedback and the current problem definition.
 */
module ProblemFormulationPrompt {
  import opened Wrappers
  import opened Text
  import opened DataModels
  import opened PromptParts

  datatype ProblemPrompt = ProblemPrompt(
    profile: ProfileSlots,
    additionalContext: string,
    refinementContext: string)

  const RefinementHeader := "\nREFINEMENT REQUEST:\nUser Feedback: "
  const StatementLabel := "\n\nCurrent Problem Definition:\n- Problem Statement: "
  const QuestionLabel := "\n- Main Question: "
  const SecondaryLabel := "\n- Secondary Questions: "
  const VariablesLabel := "\n- Key Variables: "
  const RefinementFooter := "\n\nPlease refine the problem definition based on the user's feedback while maintaining coherence and feasibility.\n"

  /** Python truthiness of an optional string. */
  predicate Given(s: Option<string>) {
    s.Some? && s.value != []
  }

  /** The pieces of the refinement block, in order. */
  function RefinementPieces(feedback: string, d: ProblemDefinition): (r: seq<string>)
    ensures |r| == 11
    ensures r[1] == feedback && r[3] == d.problemStatement && r[5] == d.mainResearchQuestion
    ensures r[7] == Join(", ", d.secondaryQuestions) && r[9] == Join(", ", d.keyVariables)
  {
    [RefinementHeader, feedback,
     StatementLabel, d.problemStatement,
     QuestionLabel, d.mainResearchQuestion,
     SecondaryLabel, Join(", ", d.secondaryQuestions),
     VariablesLabel, Join(", ", d.keyVariables),
     RefinementFooter]
  }

  /** The refinement block for a definition and a (truthy) feedback text. */
  function RefinementBlock(feedback: string, d: ProblemDefinition): string {
    Concat(RefinementPieces(feedback, d))
  }

  /** `format_prompt_for_user_profile(user_profile, feedback, current_definition)`. */
  function FormatPromptForUserProfile(p: UserProfile, feedback: Option<string>, current: Option<ProblemDefinition>): (r: ProblemPrompt)
    ensures r.profile == ProfileSlotsOf(p, NoneSpecified)
    ensures p.additionalContext.Some? && p.additionalContext.value != [] ==> r.additionalContext == p.additionalContext.value
    ensures p.additionalContext.None? || p.additionalContext.value == [] ==> r.additionalContext == NoneText
    ensures r.refinementContext != [] <==> current.Some? && Given(feedback)
    ensures current.Some? && Given(feedback) ==> r.refinementContext == RefinementBlock(feedback.value, current.value)
  {
    var additional := if Given(p.additionalContext) then p.additionalContext.value else NoneText;
    var refinement := if current.Some? && Given(feedback) then RefinementBlock(feedback.value, current.value) else [];
    ProblemPrompt(ProfileSlotsOf(p, NoneSpecified), additional, refinement)
  }

  /**
   * The refinement block quotes the feedback, the current statement and
   * question, and the secondary questions and variables joined by ", ".
   */
  lemma RefinementBlockQuotes(feedback: string, d: ProblemDefinition)
    ensures Contains(RefinementBlock(feedback, d), feedback)
    ensures Contains(RefinementBlock(feedback, d), d.problemStatement)
    ensures Contains(RefinementBlock(feedback, d), d.mainResearchQuestion)
    ensures Contains(RefinementBlock(feedback, d), Join(", ", d.secondaryQuestions))
    ensures Contains(RefinementBlock(feedback, d), Join(", ", d.keyVariables))
  {
    var ps := RefinementPieces(feedback, d);
    ConcatContainsPart(ps, 1);
    ConcatContainsPart(ps, 3);
    ConcatContainsPart(ps, 5);
    ConcatContainsPart(ps, 7);
    ConcatContainsPart(ps, 9);
  }

  /**
   * A first run (no feedback, or feedback that is empty) gets no refinement
   * block even when a definition is passed; with both, the block quotes them.
   */
  lemma RefinementOnlyWithFeedback(p: UserProfile, feedback: Option<string>, current: Option<ProblemDefinition>)
    ensures !Given(feedback) ==> FormatPromptForUserProfile(p, feedback, current).refinementContext == []
    ensures current.Some? && Given(feedback) ==>
      Contains(FormatPromptForUserProfile(p, feedback, current).refinementContext, feedback.value) &&
      Contains(FormatPromptForUserProfile(p, feedback, current).refinementContext, current.value.problemStatement)
  {
    if current.Some? && Given(feedback) {
      RefinementBlockQuotes(feedback.value, current.value);
    }
  }
}

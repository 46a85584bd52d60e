/**
 * The methodology prompt: profile, problem and objectives slots, and a hint
 * at the research type guessed from words in the main research question.
 */
module MethodologyPrompt {
  import opened Text
  import opened DataModels
  import opened PromptParts

  datatype MethodologyPrompt = MethodologyPrompt(
    profile: ProfileSlots,
    problemStatement: string,
    mainResearchQuestion: string,
    researchTypeHint: string,
    generalObjective: string,
    specificObjectives: string)

  const QuantitativeWords := ["how many", "measure", "quantify", "correlation", "effect"]
  const QualitativeWords := ["how", "why", "experience", "perception", "understand"]

  const LikelyQuantitative := "Likely quantitative"
  const LikelyQualitative := "Likely qualitative"
  const Undetermined := "To be determined based on objectives"

  /** `any(word in text for word in words)`: plain substring tests. */
  predicate MentionsAny(text: string, words: seq<string>) {
    exists i :: 0 <= i < |words| && Contains(text, words[i])
  }

  /**
   * The research-type hint: the quantitative words are tried first, so a
   * question mentioning both kinds is called quantitative.
   */
  function ResearchTypeHint(question: string): (r: string)
    ensures r == LikelyQuantitative <==> MentionsAny(Lower(question), QuantitativeWords)
    ensures r == LikelyQualitative <==>
      !MentionsAny(Lower(question), QuantitativeWords) && MentionsAny(Lower(question), QualitativeWords)
    ensures r == Undetermined <==>
      !MentionsAny(Lower(question), QuantitativeWords) && !MentionsAny(Lower(question), QualitativeWords)
  {
    var q := Lower(question);
    if MentionsAny(q, QuantitativeWords) then LikelyQuantitative
    else if MentionsAny(q, QualitativeWords) then LikelyQualitative
    else Undetermined
  }

  /**
   * "how many" is both a quantitative phrase and contains the qualitative
   * word "how"; the quantitative reading wins.
   */
  lemma HowManyIsQuantitative(question: string)
    requires Contains(Lower(question), "how many")
    ensures Contains(Lower(question), "how")
    ensures ResearchTypeHint(question) == LikelyQuantitative
  {
    assert Contains(Lower(question), QuantitativeWords[0]);
    ContainsShorter(Lower(question), "how many", "how");
  }

  /** A text containing `s` contains every prefix of `s`. */
  lemma {:induction false} ContainsShorter(text: string, s: string, prefix: string)
    requires Contains(text, s) && StartsWith(s, prefix)
    ensures Contains(text, prefix)
    decreases |text|
  {
    if StartsWith(text, s) {
      assert text[..|prefix|] == s[..|prefix|];
    } else {
      ContainsShorter(text[1..], s, prefix);
    }
  }

  /** `format_prompt_for_methodology(user_profile, problem_definition, research_objectives)`. */
  function FormatPromptForMethodology(p: UserProfile, d: ProblemDefinition, o: ResearchObjectives): (r: MethodologyPrompt)
    ensures r.profile == ProfileSlotsOf(p, NoneSpecified)
    ensures r.problemStatement == d.problemStatement
    ensures r.mainResearchQuestion == d.mainResearchQuestion
    ensures r.researchTypeHint == ResearchTypeHint(d.mainResearchQuestion)
    ensures r.generalObjective == o.generalObjective
    ensures o.specificObjectives == [] ==> r.specificObjectives == NoneText
    ensures o.specificObjectives != [] ==> r.specificObjectives == Join("; ", o.specificObjectives)
    ensures forall k :: 0 <= k < |o.specificObjectives| ==> Contains(r.specificObjectives, o.specificObjectives[k])
  {
    MethodologyPrompt(
      ProfileSlotsOf(p, NoneSpecified),
      d.problemStatement,
      d.mainResearchQuestion,
      ResearchTypeHint(d.mainResearchQuestion),
      o.generalObjective,
      JoinOr("; ", o.specificObjectives, NoneText))
  }
}

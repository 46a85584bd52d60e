/**
 * The data-collection prompt: profile, objectives and methodology slots.
 */
module DataCollectionPrompt {
  import opened Text
  import opened DataModels
  import opened PromptParts

  datatype DataCollectionPrompt = DataCollectionPrompt(
    profile: ProfileSlots,
    generalObjective: string,
    specificObjectives: string,
    recommendedMethodology: string,
    methodologyType: string,
    methodologySkills: string)

  /** `format_prompt_for_data_collection(user_profile, research_objectives, methodology)`. */
  function FormatPromptForDataCollection(p: UserProfile, o: ResearchObjectives, m: MethodologyRecommendation): (r: DataCollectionPrompt)
    ensures r.profile == ProfileSlotsOf(p, NoneSpecified)
    ensures r.generalObjective == o.generalObjective
    ensures o.specificObjectives == [] ==> r.specificObjectives == NoneText
    ensures o.specificObjectives != [] ==> r.specificObjectives == Join("; ", o.specificObjectives)
    ensures r.recommendedMethodology == m.recommendedMethodology
    ensures r.methodologyType == m.methodologyType
    ensures m.requiredSkills == [] ==> r.methodologySkills == NoneText
    ensures m.requiredSkills != [] ==> r.methodologySkills == Join(", ", m.requiredSkills)
    ensures forall k :: 0 <= k < |m.requiredSkills| ==> Contains(r.methodologySkills, m.requiredSkills[k])
  {
    DataCollectionPrompt(
      ProfileSlotsOf(p, NoneSpecified),
      o.generalObjective,
      JoinOr("; ", o.specificObjectives, NoneText),
      m.recommendedMethodology,
      m.methodologyType,
      JoinOr(", ", m.requiredSkills, NoneText))
  }
}

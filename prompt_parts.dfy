/**
 * Pieces every stage prompt is assembled from: a list shown joined or as a
 * placeholder when empty, the timeline as "value unit", and the eight
 * profile slots each of the five prompts fills in the same way.
 *
 * The prompt templates themselves are static text; a prompt is modelled by
 * the values substituted into its slots.
 */
module PromptParts {
  import opened Wrappers
  import opened Text
  import opened DataModels

  /** `sep.join(xs) if xs else none`: every item appears, or the placeholder does. */
  function JoinOr(sep: string, xs: seq<string>, none: string): (r: string)
    ensures xs == [] ==> r == none
    ensures xs != [] ==> r == Join(sep, xs)
    ensures forall k :: 0 <= k < |xs| ==> Contains(r, xs[k])
  {
    JoinContainsAll(sep, xs);
    if xs == [] then none else Join(sep, xs)
  }

  /** `f"{t.value} {t.unit}"`. */
  function TimelineText(t: Timeline): (r: string)
    ensures EndsWith(r, " " + t.unit)
    ensures StartsWith(r, IntToString(t.value))
  {
    var r := IntToString(t.value) + " " + t.unit;
    assert r[|r| - |" " + t.unit|..] == " " + t.unit;
    r
  }

  const NoneSpecified := "None specified"
  const NoneText := "None"

  /** The profile slots of a stage prompt. */
  datatype ProfileSlots = ProfileSlots(
    academicProgram: string,
    fieldOfStudy: string,
    researchArea: string,
    weeklyHours: string,
    timeline: string,
    existingSkills: string,
    missingSkills: string,
    constraints: string)

  /**
   * The profile slots for `p`. `existingNone` is what an empty skill list
   * shows: "None specified" in four prompts, "None" in the quality-control one.
   */
  function ProfileSlotsOf(p: UserProfile, existingNone: string): (r: ProfileSlots)
    ensures r.academicProgram == p.academicProgram
    ensures r.fieldOfStudy == p.fieldOfStudy
    ensures r.researchArea == p.researchArea
    ensures r.weeklyHours == IntToString(p.weeklyHours)
    ensures r.timeline == TimelineText(p.totalTimeline)
    ensures p.existingSkills == [] ==> r.existingSkills == existingNone
    ensures p.existingSkills != [] ==> r.existingSkills == Join(", ", p.existingSkills)
    ensures p.missingSkills == [] ==> r.missingSkills == NoneText
    ensures p.missingSkills != [] ==> r.missingSkills == Join(", ", p.missingSkills)
    ensures p.constraints == [] ==> r.constraints == NoneText
    ensures p.constraints != [] ==> r.constraints == Join(", ", p.constraints)
  {
    ProfileSlots(
      p.academicProgram,
      p.fieldOfStudy,
      p.researchArea,
      IntToString(p.weeklyHours),
      TimelineText(p.totalTimeline),
      JoinOr(", ", p.existingSkills, existingNone),
      JoinOr(", ", p.missingSkills, NoneText),
      JoinOr(", ", p.constraints, NoneText))
  }

  /** Every skill and constraint of the profile is mentioned in its slot. */
  lemma ProfileListsMentioned(p: UserProfile, existingNone: string)
    ensures forall k :: 0 <= k < |p.existingSkills| ==> Contains(ProfileSlotsOf(p, existingNone).existingSkills, p.existingSkills[k])
    ensures forall k :: 0 <= k < |p.missingSkills| ==> Contains(ProfileSlotsOf(p, existingNone).missingSkills, p.missingSkills[k])
    ensures forall k :: 0 <= k < |p.constraints| ==> Contains(ProfileSlotsOf(p, existingNone).constraints, p.constraints[k])
  {
    var r := ProfileSlotsOf(p, existingNone);
    assert r.existingSkills == JoinOr(", ", p.existingSkills, existingNone);
    assert r.missingSkills == JoinOr(", ", p.missingSkills, NoneText);
    assert r.constraints == JoinOr(", ", p.constraints, NoneText);
  }
}

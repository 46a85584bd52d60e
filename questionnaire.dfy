/** The interview's nine questions and the two answer validators. */
module Questionnaire {
  import opened Wrappers
  import opened Text
  import opened JsonData
  import DataModels

  /** The validators a question may carry. */
  datatype Validator = PositiveInt | AnyTimeline

  datatype InterviewQuestion = InterviewQuestion(
    id: string,
    text: string,
    fieldName: string,
    validation: Option<Validator>,
    clarificationPrompt: Option<string>)

  /** `int(value) > 0`; any conversion failure means invalid. */
  function ValidatePositiveInt(value: Json): (r: bool)
    ensures value.JInt? ==> (r <==> value.i > 0)
    ensures value.JBool? ==> (r <==> value.b)
    ensures value.JFloat? ==> (r <==> value.value >= 1.0)
    ensures value.JStr? ==> (r <==> ParseInt(value.s).Some? && ParseInt(value.s).value > 0)
    ensures value.JNull? || value.JArray? || value.JObject? ==> !r
  {
    match PyInt(value)
    case Success(n) => n > 0
    case Failure(_) => false
  }

  /** A placeholder that accepts every timeline. */
  function ValidateTimeline(value: Json): (r: bool)
    ensures r
  {
    true
  }

  function Validate(v: Validator, value: Json): bool {
    match v
    case PositiveInt => ValidatePositiveInt(value)
    case AnyTimeline => ValidateTimeline(value)
  }

  function Question(id: string, text: string): InterviewQuestion {
    InterviewQuestion(id, text, id, None, None)
  }

  const AcademicProgramText := "What is your current academic program (e.g., Bachelor's, Master's, PhD)?"
  const FieldOfStudyText := "What is your general field of study?"
  const ResearchAreaText := "What is your specific research area of interest?"
  const WeeklyHoursText := "How many hours per week can you dedicate to this research?"
  const WeeklyHoursClarification := "Please provide a valid number of hours (e.g., 10, 20)."
  const TotalTimelineText := "What is your total timeline for this project (e.g., 6 months, 1 year)?"
  const ExistingSkillsText := "What relevant skills do you currently possess (e.g., Python, Statistics, Qualitative Analysis)?"
  const MissingSkillsText := "Are there any specific skills you are looking to develop or currently lack?"
  const ConstraintsText := "Do you have any specific constraints (e.g., no fieldwork, limited software access, remote only)?"
  const AdditionalContextText := "Is there any other context or information you'd like to share?"

  /** The question list, in the order it is asked. */
  function Questions(): (qs: seq<InterviewQuestion>)
    ensures |qs| == 9
    ensures qs[0].id == "academic_program"
    ensures forall i :: 0 <= i < |qs| ==> qs[i].id == qs[i].fieldName
    ensures qs[3].id == "weekly_hours" && qs[4].id == "total_timeline"
    ensures forall i :: 0 <= i < |qs| ==> (qs[i].clarificationPrompt.Some? <==> i == 3)
    ensures forall i :: 0 <= i < |qs| ==> (qs[i].validation.Some? <==> i == 3 || i == 4)
    ensures qs[3].validation == Some(PositiveInt) && qs[4].validation == Some(AnyTimeline)
  {
    [ Question("academic_program", AcademicProgramText),
      Question("field_of_study", FieldOfStudyText),
      Question("research_area", ResearchAreaText),
      InterviewQuestion("weekly_hours", WeeklyHoursText, "weekly_hours", Some(PositiveInt), Some(WeeklyHoursClarification)),
      InterviewQuestion("total_timeline", TotalTimelineText, "total_timeline", Some(AnyTimeline), None),
      Question("existing_skills", ExistingSkillsText),
      Question("missing_skills", MissingSkillsText),
      Question("constraints", ConstraintsText),
      Question("additional_context", AdditionalContextText) ]
  }

  function FieldNames(qs: seq<InterviewQuestion>): (r: seq<string>)
    ensures |r| == |qs| && forall i :: 0 <= i < |qs| ==> r[i] == qs[i].fieldName
  {
    seq(|qs|, i requires 0 <= i < |qs| => qs[i].fieldName)
  }

  function FieldsKeys(f: Fields): (r: seq<string>)
    ensures |r| == |f| && forall i :: 0 <= i < |f| ==> r[i] == f[i].0
  {
    seq(|f|, i requires 0 <= i < |f| => f[i].0)
  }

  /** The questions ask for exactly the fields of a user profile, in declaration order. */
  lemma QuestionsCoverUserProfile(p: DataModels.UserProfile)
    ensures FieldNames(Questions()) == FieldsKeys(DataModels.UserProfileJson(p).fields)
  {
  }
}

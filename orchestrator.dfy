/**
 * The proposal orchestrator: it runs the five generating stages in order,
 * guards every state change with the transition table, and repeats the
 * stages after a failed quality check while the refinement budget lasts.
 *
 * The language-model agents, `json.loads`, the brace-pattern regex and the
 * clock are inputs (see `Agent` and `Environment`); exceptions are
 * `Failure` results, and `run_workflow` turns any of them into a failed
 * result instead of raising.
 */
module Orchestrator {
  import opened Wrappers
  import opened Text
  import opened Errors
  import opened JsonData
  import opened DataModels
  import opened WorkflowState
  import opened JsonExtraction
  import opened AgentOutput
  import PF = ProblemFormulationPrompt
  import OB = ObjectivesPrompt
  import ME = MethodologyPrompt
  import DC = DataCollectionPrompt
  import QC = QualityControlPrompt

  /** The five stages after the interview. */
  datatype Stage = ProblemStage | ObjectivesStage | MethodologyStage | DataCollectionStage | QualityControlStage

  function StageState(s: Stage): State {
    match s
    case ProblemStage => ProblemFormulation
    case ObjectivesStage => Objectives
    case MethodologyStage => Methodology
    case DataCollectionStage => DataCollection
    case QualityControlStage => QualityControl
  }

  /** The key of each stage's agent in the `agents` dict. */
  function AgentKey(s: Stage): string {
    match s
    case ProblemStage => "problem_formulation"
    case ObjectivesStage => "objectives"
    case MethodologyStage => "methodology"
    case DataCollectionStage => "data_collection"
    case QualityControlStage => "quality_control"
  }

  /** The keys each stage requires of the JSON its agent answers with. */
  function RequiredKeys(s: Stage): seq<string> {
    match s
    case ProblemStage => ["problem_statement", "main_research_question"]
    case ObjectivesStage => ["general_objective", "specific_objectives"]
    case MethodologyStage => ["recommended_methodology", "methodology_type"]
    case DataCollectionStage => ["collection_techniques", "timeline_breakdown"]
    case QualityControlStage => ["validation_passed", "overall_quality_score"]
  }

  /** The prompt a stage sends, as the values substituted into its template. */
  datatype Prompt =
    | ProblemPrompt(problem: PF.ProblemPrompt)
    | ObjectivesPrompt(objectives: OB.ObjectivesPrompt)
    | MethodologyPrompt(methodology: ME.MethodologyPrompt)
    | DataCollectionPrompt(dataCollection: DC.DataCollectionPrompt)
    | QualityControlPrompt(qualityControl: QC.QualityControlPrompt)

  /**
   * An agent: its name and what a run on a prompt yields. The number of
   * moves recorded when the agent is called tells repeated calls apart.
   */
  datatype Agent = Agent(name: string, answer: (Prompt, nat) -> AgentRun)

  /** The decoder, the regex scanner, and the clock giving the timestamp of the n-th move. */
  datatype Environment = Environment(
    parse: string -> Option<Json>,
    scan: string -> seq<string>,
    clock: nat -> string,
    generatedAt: string)

  /** A stage's record. */
  datatype StageOutput =
    | ProblemOutput(definition: ProblemDefinition)
    | ObjectivesOutput(objectives: ResearchObjectives)
    | MethodologyOutput(recommendation: MethodologyRecommendation)
    | DataCollectionOutput(plan: DataCollectionPlan)
    | QualityOutput(validation: QualityValidation)

  function OutputStage(o: StageOutput): Stage {
    match o
    case ProblemOutput(_) => ProblemStage
    case ObjectivesOutput(_) => ObjectivesStage
    case MethodologyOutput(_) => MethodologyStage
    case DataCollectionOutput(_) => DataCollectionStage
    case QualityOutput(_) => QualityControlStage
  }

  /** `Model(**data)` for each stage's record type. */
  function ProblemOutputOf(data: Json): (r: Result<StageOutput, PyError>)
    ensures r.Success? ==> r.value.ProblemOutput? && data.JObject?
  {
    var d :- DecodeProblemDefinition(data); Success(ProblemOutput(d))
  }

  function ObjectivesOutputOf(data: Json): (r: Result<StageOutput, PyError>)
    ensures r.Success? ==> r.value.ObjectivesOutput? && data.JObject?
  {
    var o :- DecodeResearchObjectives(data); Success(ObjectivesOutput(o))
  }

  function MethodologyOutputOf(data: Json): (r: Result<StageOutput, PyError>)
    ensures r.Success? ==> r.value.MethodologyOutput? && data.JObject?
  {
    var m :- DecodeMethodologyRecommendation(data); Success(MethodologyOutput(m))
  }

  function DataCollectionOutputOf(data: Json): (r: Result<StageOutput, PyError>)
    ensures r.Success? ==> r.value.DataCollectionOutput? && data.JObject?
  {
    var c :- DecodeDataCollectionPlan(data); Success(DataCollectionOutput(c))
  }

  function QualityOutputOf(data: Json): (r: Result<StageOutput, PyError>)
    ensures r.Success? ==> r.value.QualityOutput? && data.JObject?
  {
    var q :- DecodeQualityValidation(data); Success(QualityOutput(q))
  }

  /** The stage's record built from a parsed dict, by the record model that stage uses. */
  function DecodeOutput(s: Stage, data: Json): (r: Result<StageOutput, PyError>)
    ensures r.Success? ==> OutputStage(r.value) == s && data.JObject?
  {
    match s
    case ProblemStage => ProblemOutputOf(data)
    case ObjectivesStage => ObjectivesOutputOf(data)
    case MethodologyStage => MethodologyOutputOf(data)
    case DataCollectionStage => DataCollectionOutputOf(data)
    case QualityControlStage => QualityOutputOf(data)
  }

  /** Every recorded move is in the transition table. */
  predicate Legal(h: seq<StateTransition>) {
    forall i :: 0 <= i < |h| ==> IsValidTransition(h[i].fromState, h[i].toState)
  }

  /** No move leads back to Init, so a context in Init has recorded nothing. */
  lemma InitHasNoHistory(h: seq<StateTransition>)
    requires Legal(h) && Reached(Init, h) == Init
    ensures h == []
  {
  }

  /** `f"{state}"` for the string-valued enum: its qualified member name. */
  function EnumText(s: State): string {
    "WorkflowState." + Upper(Value(s))
  }

  function InvalidTransition(from: State, to: State): PyError {
    ValueError("Invalid transition from " + EnumText(from) + " to " + EnumText(to))
  }

  /** The metadata of the move into Error after an exception. */
  function ErrorMetadata(e: PyError): Fields {
    [("error", JStr(Message(e)))]
  }

  function NoneAttribute(name: string): PyError {
    AttributeError("'NoneType' object has no attribute '" + name + "'")
  }

  const InterviewNotImplemented :=
    "Interactive interview execution not implemented in autonomous orchestrator. Please provide a UserProfile."
  const MaxRefinementsWarning := "Max refinements reached"

  /** The refinement metadata of a move into Complete without a passing validation. */
  const GaveUpMetadata: Fields := [("warning", JStr(MaxRefinementsWarning)), ("validation_passed", JBool(false))]

  /** The proposal dict: each component's dump, or `None` when the stage never produced it. */
  datatype FinalProposal = FinalProposal(
    userProfile: Option<Json>,
    problemDefinition: Option<Json>,
    researchObjectives: Option<Json>,
    methodology: Option<Json>,
    dataCollectionPlan: Option<Json>,
    qualityValidation: Option<Json>,
    generatedAt: string)

  /** What `run_workflow` returns. */
  datatype WorkflowResult =
    | Succeeded(
        proposal: FinalProposal,
        refinementIterations: int,
        validationPassed: bool,
        coherenceScore: Float,
        feasibilityScore: Float,
        workflowHistory: seq<(State, State, string)>)
    | Failed(error: string, state: State, refinementIterations: int)

  /** The `workflow_history` rows of a run's transitions: from, to and timestamp of each. */
  function HistoryRows(h: seq<StateTransition>): (rows: seq<(State, State, string)>)
    ensures |rows| == |h|
    ensures forall i :: 0 <= i < |h| ==> rows[i] == (h[i].fromState, h[i].toState, h[i].timestamp)
  {
    seq(|h|, i requires 0 <= i < |h| => (h[i].fromState, h[i].toState, h[i].timestamp))
  }

  /** What `get_current_status` returns. */
  datatype Status = Status(
    currentState: State,
    currentStep: string,
    progressPercentage: nat,
    refinementCount: int,
    maxRefinements: int,
    canRefine: bool,
    errorMessage: Option<string>)

  function MapOption<T, U>(o: Option<T>, f: T -> U): (r: Option<U>)
    ensures r.Some? <==> o.Some?
    ensures o.Some? ==> r.value == f(o.value)
  {
    match o
    case Some(v) => Some(f(v))
    case None => None
  }

  /** The agents `run_workflow` looks up, given whether a profile is passed in. */
  predicate HasAgents(agents: map<string, Agent>, profileGiven: bool) {
    && (!profileGiven ==> "interviewer" in agents)
    && AgentKey(ProblemStage) in agents
    && AgentKey(ObjectivesStage) in agents
    && AgentKey(MethodologyStage) in agents
    && AgentKey(DataCollectionStage) in agents
    && AgentKey(QualityControlStage) in agents
  }

  /**
   * The move that ends a successful run: from quality control into
   * Complete, with no metadata when the validation passed, and otherwise
   * with the warning, because no refinement was wanted or none was left.
   */
  predicate ClosedAfterQuality(last: StateTransition, q: QualityValidation, count: int, max: int) {
    && last.fromState == QualityControl && last.toState == Complete
    && (q.validationPassed ==> last.metadata == [])
    && (!q.validationPassed ==> last.metadata == GaveUpMetadata && (!q.requiresRefinement || count >= max))
  }

  /** The problem stage's prompt: the profile, the feedback and, when the feedback is non-empty, the prior definition. */
  predicate IsProblemPrompt(p: Prompt, up: UserProfile, feedback: Option<string>, prior: Option<ProblemDefinition>) {
    p == ProblemPrompt(PF.FormatPromptForUserProfile(up, feedback, if PF.Given(feedback) then prior else None))
  }

  /** The objectives stage's prompt. */
  predicate IsObjectivesPrompt(p: Prompt, up: UserProfile, pd: ProblemDefinition) {
    p == ObjectivesPrompt(OB.FormatPromptForObjectives(up, pd))
  }

  /** The methodology stage's prompt. */
  predicate IsMethodologyPrompt(p: Prompt, up: UserProfile, pd: ProblemDefinition, o: ResearchObjectives) {
    p == MethodologyPrompt(ME.FormatPromptForMethodology(up, pd, o))
  }

  /** The data-collection stage's prompt. */
  predicate IsDataCollectionPrompt(p: Prompt, up: UserProfile, o: ResearchObjectives, m: MethodologyRecommendation) {
    p == DataCollectionPrompt(DC.FormatPromptForDataCollection(up, o, m))
  }

  /** The quality-control stage's prompt. */
  predicate IsQualityControlPrompt(p: Prompt, up: UserProfile, pd: ProblemDefinition, o: ResearchObjectives,
                                   m: MethodologyRecommendation, c: DataCollectionPlan)
  {
    p == QualityControlPrompt(QC.QualityControlSlots(up, pd, o, m, c))
  }

  /**
   * The problem stage's record is `pd`: asked as its `moves`-th move with
   * the profile prompt, carrying the feedback and, when the feedback is
   * non-empty, the prior definition, the agent's outcome is `pd`.
   * Each of these five predicates names the prompt through a bound variable
   * and a predicate on it, so that a proof formats the prompt only where it
   * asks for that outcome.
   */
  ghost predicate ProblemAnswered(up: UserProfile, pd: ProblemDefinition, agent: Agent, feedback: Option<string>,
                            prior: Option<ProblemDefinition>, moves: nat, env: Environment)
  {
    forall p {:trigger StageOutcome(ProblemStage, agent, p, moves, env)} ::
      IsProblemPrompt(p, up, feedback, prior) ==>
        StageOutcome(ProblemStage, agent, p, moves, env) == Success(ProblemOutput(pd))
  }

  /** The objectives record is the agent's answer to the prompt formatted from the profile and the definition. */
  ghost predicate ObjectivesAnswered(up: UserProfile, pd: ProblemDefinition, o: ResearchObjectives, agent: Agent,
                               moves: nat, env: Environment)
  {
    forall p {:trigger StageOutcome(ObjectivesStage, agent, p, moves, env)} ::
      IsObjectivesPrompt(p, up, pd) ==>
        StageOutcome(ObjectivesStage, agent, p, moves, env) == Success(ObjectivesOutput(o))
  }

  /** The methodology record is the agent's answer to the prompt formatted from the profile, definition and objectives. */
  ghost predicate MethodologyAnswered(up: UserProfile, pd: ProblemDefinition, o: ResearchObjectives, m: MethodologyRecommendation,
                                agent: Agent, moves: nat, env: Environment)
  {
    forall p {:trigger StageOutcome(MethodologyStage, agent, p, moves, env)} ::
      IsMethodologyPrompt(p, up, pd, o) ==>
        StageOutcome(MethodologyStage, agent, p, moves, env) == Success(MethodologyOutput(m))
  }

  /** The plan is the agent's answer to the prompt formatted from the profile, objectives and methodology. */
  ghost predicate DataCollectionAnswered(up: UserProfile, o: ResearchObjectives, m: MethodologyRecommendation, c: DataCollectionPlan,
                                   agent: Agent, moves: nat, env: Environment)
  {
    forall p {:trigger StageOutcome(DataCollectionStage, agent, p, moves, env)} ::
      IsDataCollectionPrompt(p, up, o, m) ==>
        StageOutcome(DataCollectionStage, agent, p, moves, env) == Success(DataCollectionOutput(c))
  }

  /** The validation is the agent's answer to the prompt formatted from the five records before it. */
  ghost predicate QualityAnswered(up: UserProfile, pd: ProblemDefinition, o: ResearchObjectives, m: MethodologyRecommendation,
                            c: DataCollectionPlan, q: QualityValidation, agent: Agent, moves: nat, env: Environment)
  {
    forall p {:trigger StageOutcome(QualityControlStage, agent, p, moves, env)} ::
      IsQualityControlPrompt(p, up, pd, o, m, c) ==>
        StageOutcome(QualityControlStage, agent, p, moves, env) == Success(QualityOutput(q))
  }

  /** The five records the orchestrator stores, as values. */
  datatype Records = Records(
    userProfile: Option<UserProfile>,
    problemDefinition: Option<ProblemDefinition>,
    researchObjectives: Option<ResearchObjectives>,
    methodology: Option<MethodologyRecommendation>,
    dataCollection: Option<DataCollectionPlan>,
    qualityValidation: Option<QualityValidation>)

  /**
   * The first three stages of a pass that started after the n-th move
   * stored what their agents answered: problem formulation (the only stage
   * given the feedback and the prior definition), objectives, methodology.
   */
  ghost predicate FrontStored(up: Option<UserProfile>, pd: Option<ProblemDefinition>, o: Option<ResearchObjectives>,
                        m: Option<MethodologyRecommendation>, agents: map<string, Agent>, feedback: Option<string>,
                        prior: Option<ProblemDefinition>, n: nat, env: Environment)
  {
    && up.Some? && pd.Some? && o.Some? && m.Some?
    && AgentKey(ProblemStage) in agents && AgentKey(ObjectivesStage) in agents && AgentKey(MethodologyStage) in agents
    && ProblemAnswered(up.value, pd.value, agents[AgentKey(ProblemStage)], feedback, prior, n + 1, env)
    && ObjectivesAnswered(up.value, pd.value, o.value, agents[AgentKey(ObjectivesStage)], n + 2, env)
    && MethodologyAnswered(up.value, pd.value, o.value, m.value, agents[AgentKey(MethodologyStage)], n + 3, env)
  }

  /** All five records of a pass are what their agents answered, each to the prompt formatted from the records before it. */
  ghost predicate PassStored(rec: Records, agents: map<string, Agent>, feedback: Option<string>,
                       prior: Option<ProblemDefinition>, n: nat, env: Environment)
  {
    && FrontStored(rec.userProfile, rec.problemDefinition, rec.researchObjectives, rec.methodology,
                   agents, feedback, prior, n, env)
    && rec.dataCollection.Some? && rec.qualityValidation.Some?
    && AgentKey(DataCollectionStage) in agents && AgentKey(QualityControlStage) in agents
    && DataCollectionAnswered(rec.userProfile.value, rec.researchObjectives.value, rec.methodology.value,
                              rec.dataCollection.value, agents[AgentKey(DataCollectionStage)], n + 4, env)
    && QualityAnswered(rec.userProfile.value, rec.problemDefinition.value, rec.researchObjectives.value,
                       rec.methodology.value, rec.dataCollection.value, rec.qualityValidation.value,
                       agents[AgentKey(QualityControlStage)], n + 5, env)
  }

  /**
   * One pass of the five stages: the feedback and the prior definition its
   * problem stage was given, the number of moves recorded before it, the
   * records it stored and the validation it ended with.
   */
  datatype Pass = Pass(feedback: Option<string>, prior: Option<ProblemDefinition>, start: nat,
                       records: Records, validation: QualityValidation)

  /** The pass stored what its agents answered, the last answer being its validation. */
  ghost predicate PassRan(p: Pass, agents: map<string, Agent>, env: Environment) {
    && PassStored(p.records, agents, p.feedback, p.prior, p.start, env)
    && p.records.qualityValidation == Some(p.validation)
  }

  /** Every pass of a run stored what its agents answered. */
  ghost predicate PassesRan(passes: seq<Pass>, agents: map<string, Agent>, env: Environment) {
    forall i :: 0 <= i < |passes| ==> PassRan(passes[i], agents, env)
  }

  /** A pass that ran, appended to passes that ran. */
  lemma PassesRanExtend(passes: seq<Pass>, p: Pass, agents: map<string, Agent>, env: Environment)
    requires PassesRan(passes, agents, env) && PassRan(p, agents, env)
    ensures PassesRan(passes + [p], agents, env)
  {
  }

  /**
   * `next` is the refinement pass after `prev`: its problem stage gets the
   * recommendations of `prev`'s validation, joined by newlines, and `prev`'s
   * definition, and it begins six moves after `prev` did (five stages and
   * the move into Refinement).
   */
  predicate Follows(prev: Pass, next: Pass) {
    && next.feedback == Some(Join("\n", prev.validation.recommendations))
    && next.prior == prev.records.problemDefinition
    && next.start == prev.start + 6
  }

  /** The feedback chain of a run: the first pass runs without feedback, each later one follows the one before. */
  predicate FeedbackChain(passes: seq<Pass>) {
    && (|passes| > 0 ==> passes[0].feedback.None?)
    && (forall i :: 0 < i < |passes| ==> Follows(passes[i - 1], passes[i]))
  }

  /** A pass that follows on from the last one as a refinement continues the chain. */
  lemma ChainExtends(passes: seq<Pass>, p: Pass)
    requires FeedbackChain(passes)
    requires passes == [] ==> p.feedback.None?
    requires passes != [] ==> Follows(passes[|passes| - 1], p)
    ensures FeedbackChain(passes + [p])
  {
  }

  /** The states a pass may be in when a stage starts: the one before it in the pass. */
  predicate Enters(prev: State, s: Stage) {
    match s
    case ProblemStage => prev == Interviewing || prev == Refinement
    case ObjectivesStage => prev == ProblemFormulation
    case MethodologyStage => prev == Objectives
    case DataCollectionStage => prev == Methodology
    case QualityControlStage => prev == DataCollection
  }

  /** Every stage of a pass is entered by a legal move. */
  lemma EntersIsLegal(prev: State, s: Stage)
    requires Enters(prev, s)
    ensures IsValidTransition(prev, StageState(s))
  {
  }

  /**
   * What a stage makes of its prompt: the agent's answer (its exception,
   * or the empty-output error), the JSON extracted from the answer with the
   * stage's own required keys, and the stage's record built from that JSON.
   */
  function StageOutcome(s: Stage, agent: Agent, prompt: Prompt, n: nat, env: Environment): (r: Result<StageOutput, PyError>)
    ensures r.Success? ==> OutputStage(r.value) == s
  {
    var text :- Answer(agent.name, agent.answer(prompt, n));
    var data :- Extracted(text, RequiredKeys(s), env.parse, env.scan);
    DecodeOutput(s, data)
  }

  /**
   * A stage's record comes from the agent's own answer: an agent that
   * raises fails the stage with its exception, and a record is built only
   * from a dict holding both of the stage's required keys.
   */
  lemma StageOutcomeFromAnswer(s: Stage, agent: Agent, prompt: Prompt, n: nat, env: Environment)
    ensures agent.answer(prompt, n).Crashed? ==> StageOutcome(s, agent, prompt, n, env) == Failure(agent.answer(prompt, n).error)
    ensures StageOutcome(s, agent, prompt, n, env).Success? ==>
              && Answer(agent.name, agent.answer(prompt, n)).Success?
              && var data := Extracted(Answer(agent.name, agent.answer(prompt, n)).value, RequiredKeys(s), env.parse, env.scan);
                 && data.Success? && data.value.JObject?
                 && DecodeOutput(s, data.value) == StageOutcome(s, agent, prompt, n, env)
                 && forall i :: 0 <= i < |RequiredKeys(s)| ==> HasKey(data.value.fields, RequiredKeys(s)[i])
  {
    var text := Answer(agent.name, agent.answer(prompt, n));
    if StageOutcome(s, agent, prompt, n, env).Success? {
      ExtractedDictHasKeys(text.value, RequiredKeys(s), env.parse, env.scan);
    }
  }

  class ResearchProposalOrchestrator {
    const context: WorkflowContext
    var userProfile: Option<UserProfile>
    var problemDefinition: Option<ProblemDefinition>
    var researchObjectives: Option<ResearchObjectives>
    var methodology: Option<MethodologyRecommendation>
    var dataCollection: Option<DataCollectionPlan>
    var qualityValidation: Option<QualityValidation>

    /** The context is consistent and only legal moves were ever recorded. */
    ghost predicate Valid()
      reads this, context
    {
      context.Valid() && Legal(context.stateHistory)
    }

    /**
     * The run has been closed after quality control: Complete, with a
     * validation whose verdict the last recorded transition follows.
     */
    ghost predicate Closed()
      reads this, context
    {
      && context.currentState == Complete && qualityValidation.Some? && |context.stateHistory| > 0
      && ClosedAfterQuality(context.stateHistory[|context.stateHistory| - 1], qualityValidation.value,
                            context.refinementCount, context.maxRefinements)
    }

    /** A fresh orchestrator: a new context in Init and no stage outputs. */
    constructor(maxRefinements: int)
      ensures Valid() && fresh(context)
      ensures context.currentState == Init && context.stateHistory == [] && context.refinementCount == 0
      ensures context.maxRefinements == maxRefinements && context.errorMessage == None
      ensures userProfile.None? && problemDefinition.None? && researchObjectives.None?
      ensures methodology.None? && dataCollection.None? && qualityValidation.None?
    {
      context := new WorkflowContext(maxRefinements);
      userProfile := None;
      problemDefinition := None;
      researchObjectives := None;
      methodology := None;
      dataCollection := None;
      qualityValidation := None;
    }

    /**
     * `_transition_to`: an illegal move raises and changes nothing; a legal
     * one is recorded by the context.
     */
    method TransitionTo(newState: State, metadata: Option<Fields>, env: Environment) returns (r: Result<(), PyError>)
      requires Valid()
      modifies context
      ensures Valid()
      ensures !IsValidTransition(old(context.currentState), newState) ==>
                r == Failure(InvalidTransition(old(context.currentState), newState)) && unchanged(context)
      ensures IsValidTransition(old(context.currentState), newState) ==>
                && r.Success?
                && context.stateHistory == old(context.stateHistory)
                   + [StateTransition(old(context.currentState), newState, env.clock(|old(context.stateHistory)|), metadata.GetOr([]))]
                && context.currentState == newState
                && context.refinementCount == old(context.refinementCount) + (if newState == Refinement then 1 else 0)
      ensures context.maxRefinements == old(context.maxRefinements)
      ensures context.errorMessage == old(context.errorMessage)
    {
      if !IsValidTransition(context.currentState, newState) {
        return Failure(InvalidTransition(context.currentState, newState));
      }
      context.TransitionTo(newState, metadata, env.clock(|context.stateHistory|));
      assert context.stateHistory[..|context.stateHistory| - 1] == old(context.stateHistory);
      return Success(());
    }

    /** Record an exception as a move into Error and pass it on. */
    method Fail(e: PyError, env: Environment) returns (r: Result<(), PyError>)
      requires Valid() && !IsTerminal(context.currentState)
      modifies context
      ensures Valid() && r == Failure(e)
      ensures context.currentState == Error
      ensures context.refinementCount == old(context.refinementCount)
      ensures context.maxRefinements == old(context.maxRefinements)
      ensures context.errorMessage == old(context.errorMessage)
    {
      TerminalStates(context.currentState);
      var t := TransitionTo(Error, Some(ErrorMetadata(e)), env);
      return Failure(e);
    }

    /**
     * `run_interviewer`: the interview itself is interactive and not run
     * here; a profile already held is returned, otherwise the stage fails.
     */
    method RunInterviewer(env: Environment) returns (r: Result<UserProfile, PyError>)
      requires Valid()
      modifies context
      ensures Valid()
      ensures context.refinementCount == old(context.refinementCount)
      ensures context.maxRefinements == old(context.maxRefinements)
      ensures context.errorMessage == old(context.errorMessage)
      ensures !IsValidTransition(old(context.currentState), Interviewing) ==> r.Failure? && unchanged(context)
      ensures IsValidTransition(old(context.currentState), Interviewing) ==>
                && (userProfile.Some? ==> && r == Success(userProfile.value) && context.currentState == Interviewing
                                          && |context.stateHistory| == old(|context.stateHistory|) + 1)
                && (userProfile.None? ==> r == Failure(NotImplementedError(InterviewNotImplemented)) && context.currentState == Error)
    {
      var t := TransitionTo(Interviewing, None, env);
      if t.Failure? {
        return Failure(t.error);
      }
      if userProfile.Some? {
        return Success(userProfile.value);
      }
      var f := Fail(NotImplementedError(InterviewNotImplemented), env);
      return Failure(f.error);
    }

    /*
     * The prompt each `run_*` stage formats from the stored outputs. Reading
     * an output that is still `None` raises an `AttributeError` naming the
     * first attribute the formatter reads; the profile is read first.
     */

    /** The problem-formulation prompt: the prior definition goes along only with non-empty feedback. */
    function PromptForProblem(feedback: Option<string>): (r: Result<Prompt, PyError>)
      reads this
      ensures r.Failure? <==> userProfile.None?
      ensures r.Failure? ==> r.error == NoneAttribute("total_timeline")
      ensures r.Success? ==> r.value.ProblemPrompt?
      ensures r.Success? ==> (r.value.problem.refinementContext != [] <==> problemDefinition.Some? && PF.Given(feedback))
      ensures r.Success? && problemDefinition.Some? && PF.Given(feedback) ==>
                r.value.problem.refinementContext == PF.RefinementBlock(feedback.value, problemDefinition.value)
    {
      if userProfile.None? then Failure(NoneAttribute("total_timeline"))
      else Success(ProblemPrompt(PF.FormatPromptForUserProfile(userProfile.value, feedback,
                                                              if PF.Given(feedback) then problemDefinition else None)))
    }

    function PromptForObjectives(): (r: Result<Prompt, PyError>)
      reads this
      ensures r.Success? <==> userProfile.Some? && problemDefinition.Some?
      ensures userProfile.None? ==> r == Failure(NoneAttribute("total_timeline"))
      ensures userProfile.Some? && problemDefinition.None? ==> r == Failure(NoneAttribute("secondary_questions"))
    {
      if userProfile.None? then Failure(NoneAttribute("total_timeline"))
      else if problemDefinition.None? then Failure(NoneAttribute("secondary_questions"))
      else Success(ObjectivesPrompt(OB.FormatPromptForObjectives(userProfile.value, problemDefinition.value)))
    }

    function PromptForMethodology(): (r: Result<Prompt, PyError>)
      reads this
      ensures r.Success? <==> userProfile.Some? && problemDefinition.Some? && researchObjectives.Some?
      ensures userProfile.None? ==> r == Failure(NoneAttribute("total_timeline"))
      ensures userProfile.Some? && researchObjectives.None? ==> r == Failure(NoneAttribute("specific_objectives"))
    {
      if userProfile.None? then Failure(NoneAttribute("total_timeline"))
      else if researchObjectives.None? then Failure(NoneAttribute("specific_objectives"))
      else if problemDefinition.None? then Failure(NoneAttribute("main_research_question"))
      else Success(MethodologyPrompt(ME.FormatPromptForMethodology(userProfile.value, problemDefinition.value, researchObjectives.value)))
    }

    function PromptForDataCollection(): (r: Result<Prompt, PyError>)
      reads this
      ensures r.Success? <==> userProfile.Some? && researchObjectives.Some? && methodology.Some?
      ensures userProfile.None? ==> r == Failure(NoneAttribute("total_timeline"))
      ensures userProfile.Some? && researchObjectives.None? ==> r == Failure(NoneAttribute("specific_objectives"))
    {
      if userProfile.None? then Failure(NoneAttribute("total_timeline"))
      else if researchObjectives.None? then Failure(NoneAttribute("specific_objectives"))
      else if methodology.None? then Failure(NoneAttribute("required_skills"))
      else Success(DataCollectionPrompt(DC.FormatPromptForDataCollection(userProfile.value, researchObjectives.value, methodology.value)))
    }

    function PromptForQualityControl(): (r: Result<Prompt, PyError>)
      reads this
      ensures r.Success? <==> userProfile.Some? && problemDefinition.Some? && researchObjectives.Some? && methodology.Some? && dataCollection.Some?
      ensures userProfile.None? ==> r == Failure(NoneAttribute("total_timeline"))
    {
      if userProfile.None? then Failure(NoneAttribute("total_timeline"))
      else if problemDefinition.None? then Failure(NoneAttribute("secondary_questions"))
      else if researchObjectives.None? then Failure(NoneAttribute("specific_objectives"))
      else if methodology.None? then Failure(NoneAttribute("required_skills"))
      else if dataCollection.None? then Failure(NoneAttribute("collection_techniques"))
      else Success(QualityControlPrompt(QC.QualityControlSlots(userProfile.value, problemDefinition.value, researchObjectives.value,
                                                                methodology.value, dataCollection.value)))
    }

    /** Store a stage's record in its field. */
    method Store(o: StageOutput)
      modifies this
      ensures o.ProblemOutput? ==> problemDefinition == Some(o.definition)
      ensures o.ObjectivesOutput? ==> researchObjectives == Some(o.objectives)
      ensures o.MethodologyOutput? ==> methodology == Some(o.recommendation)
      ensures o.DataCollectionOutput? ==> dataCollection == Some(o.plan)
      ensures o.QualityOutput? ==> qualityValidation == Some(o.validation)
      ensures !o.ProblemOutput? ==> problemDefinition == old(problemDefinition)
      ensures !o.ObjectivesOutput? ==> researchObjectives == old(researchObjectives)
      ensures !o.MethodologyOutput? ==> methodology == old(methodology)
      ensures !o.DataCollectionOutput? ==> dataCollection == old(dataCollection)
      ensures !o.QualityOutput? ==> qualityValidation == old(qualityValidation)
      ensures userProfile == old(userProfile)
    {
      match o
      case ProblemOutput(d) => problemDefinition := Some(d);
      case ObjectivesOutput(ob) => researchObjectives := Some(ob);
      case MethodologyOutput(m) => methodology := Some(m);
      case DataCollectionOutput(c) => dataCollection := Some(c);
      case QualityOutput(q) => qualityValidation := Some(q);
    }

    /**
     * The body of a stage's `try` block up to storing the record: with the
     * prompt built, run the agent, extract the JSON and build the record,
     * stopping at the first exception.
     */
    method Attempt(s: Stage, agent: Agent, prompt: Result<Prompt, PyError>, env: Environment) returns (r: Result<StageOutput, PyError>)
      ensures prompt.Failure? ==> r == Failure(prompt.error)
      ensures prompt.Success? ==> r == StageOutcome(s, agent, prompt.value, |context.stateHistory|, env)
    {
      if prompt.Failure? {
        return Failure(prompt.error);
      }
      var text := ExecuteAgent(agent.name, agent.answer(prompt.value, |context.stateHistory|));
      if text.Failure? {
        return Failure(text.error);
      }
      var data := ExtractJson(text.value, RequiredKeys(s), env.parse, env.scan);
      if data.Failure? {
        return Failure(data.error);
      }
      r := DecodeOutput(s, data.value);
    }

    /**
     * One `run_*` stage: move into the stage's state (an illegal move
     * raises before anything else), then build the prompt, run the agent,
     * extract the JSON, build and store the record; any exception there
     * moves the workflow into Error and is raised again. The prompt is
     * formatted from outputs the move into the stage leaves alone, so it is
     * passed in already built, its exception included.
     */
    method RunStage(s: Stage, agent: Agent, prompt: Result<Prompt, PyError>, env: Environment) returns (r: Result<StageOutput, PyError>)
      requires Valid()
      modifies this, context
      ensures Valid()
      ensures context.refinementCount == old(context.refinementCount)
      ensures context.maxRefinements == old(context.maxRefinements)
      ensures context.errorMessage == old(context.errorMessage)
      ensures !IsValidTransition(old(context.currentState), StageState(s)) ==>
                r == Failure(InvalidTransition(old(context.currentState), StageState(s))) && unchanged(context)
      ensures IsValidTransition(old(context.currentState), StageState(s)) ==>
                (r.Success? ==> context.currentState == StageState(s)) && (r.Failure? ==> context.currentState == Error)
      // The result is what the agent, run after the move in, makes of the prompt.
      ensures IsValidTransition(old(context.currentState), StageState(s)) && prompt.Failure? ==> r == Failure(prompt.error)
      ensures IsValidTransition(old(context.currentState), StageState(s)) && prompt.Success? ==>
                r == StageOutcome(s, agent, prompt.value, old(|context.stateHistory|) + 1, env)
      ensures r.Success? ==> |context.stateHistory| == old(|context.stateHistory|) + 1
      // The stage's own field is replaced only on success; the others stay.
      ensures r.Success? && r.value.ProblemOutput? ==> problemDefinition == Some(r.value.definition)
      ensures r.Success? && r.value.ObjectivesOutput? ==> researchObjectives == Some(r.value.objectives)
      ensures r.Success? && r.value.MethodologyOutput? ==> methodology == Some(r.value.recommendation)
      ensures r.Success? && r.value.DataCollectionOutput? ==> dataCollection == Some(r.value.plan)
      ensures r.Success? && r.value.QualityOutput? ==> qualityValidation == Some(r.value.validation)
      ensures r.Failure? || s != ProblemStage ==> problemDefinition == old(problemDefinition)
      ensures r.Failure? || s != ObjectivesStage ==> researchObjectives == old(researchObjectives)
      ensures r.Failure? || s != MethodologyStage ==> methodology == old(methodology)
      ensures r.Failure? || s != DataCollectionStage ==> dataCollection == old(dataCollection)
      ensures r.Failure? || s != QualityControlStage ==> qualityValidation == old(qualityValidation)
      ensures userProfile == old(userProfile)
    {
      var t := TransitionTo(StageState(s), None, env);
      if t.Failure? {
        return Failure(t.error);
      }
      var out := Attempt(s, agent, prompt, env);
      if out.Failure? {
        var f := Fail(out.error, env);
        return Failure(f.error);
      }
      Store(out.value);
      return Success(out.value);
    }

    /**
     * Step 1 of `run_workflow`: take the given profile and move into
     * Interviewing, or run the interviewer stage (whose agent must be in
     * the dict, although the stage does not use it).
     */
    method StartInterview(agents: map<string, Agent>, initialProfile: Option<UserProfile>, env: Environment) returns (r: Result<(), PyError>)
      requires Valid()
      modifies this, context
      ensures Valid()
      ensures context.refinementCount == old(context.refinementCount)
      ensures context.maxRefinements == old(context.maxRefinements)
      ensures context.errorMessage == old(context.errorMessage)
      ensures r.Success? ==> context.currentState == Interviewing && userProfile.Some?
      ensures old(context.currentState) != Init ==> r.Failure?
      ensures old(context.currentState) == Init && (initialProfile.None? ==> "interviewer" in agents) && r.Failure? ==>
                context.currentState == Error
      ensures initialProfile.Some? ==> userProfile == initialProfile
      ensures initialProfile.None? ==> userProfile == old(userProfile)
      ensures qualityValidation == old(qualityValidation)
      ensures problemDefinition == old(problemDefinition)
      ensures r.Success? ==> |context.stateHistory| == old(|context.stateHistory|) + 1
    {
      if initialProfile.Some? {
        userProfile := initialProfile;
        var t := TransitionTo(Interviewing, None, env);
        if t.Failure? {
          return Failure(t.error);
        }
        return Success(());
      }
      if "interviewer" !in agents {
        return Failure(KeyError("interviewer"));
      }
      var p := RunInterviewer(env);
      if p.Failure? {
        return Failure(p.error);
      }
      userProfile := Some(p.value);
      return Success(());
    }

    /**
     * `agents[key]` followed by the stage that agent runs: a missing agent
     * raises `KeyError` before the stage starts.
     */
    method RunAgentStage(s: Stage, agents: map<string, Agent>, prompt: Result<Prompt, PyError>, env: Environment) returns (r: Result<StageOutput, PyError>)
      requires Valid() && Enters(context.currentState, s)
      modifies this, context
      ensures Valid()
      ensures context.refinementCount == old(context.refinementCount)
      ensures context.maxRefinements == old(context.maxRefinements)
      ensures context.errorMessage == old(context.errorMessage)
      ensures AgentKey(s) !in agents ==> r == Failure(KeyError(AgentKey(s)))
      ensures AgentKey(s) in agents && prompt.Failure? ==> r == Failure(prompt.error)
      ensures AgentKey(s) in agents && prompt.Success? ==>
                r == StageOutcome(s, agents[AgentKey(s)], prompt.value, old(|context.stateHistory|) + 1, env)
      ensures r.Success? ==> context.currentState == StageState(s) && |context.stateHistory| == old(|context.stateHistory|) + 1
      ensures r.Failure? && AgentKey(s) in agents ==> context.currentState == Error
      ensures r.Success? && r.value.ProblemOutput? ==> problemDefinition == Some(r.value.definition)
      ensures r.Success? && r.value.ObjectivesOutput? ==> researchObjectives == Some(r.value.objectives)
      ensures r.Success? && r.value.MethodologyOutput? ==> methodology == Some(r.value.recommendation)
      ensures r.Success? && r.value.DataCollectionOutput? ==> dataCollection == Some(r.value.plan)
      ensures r.Success? && r.value.QualityOutput? ==> qualityValidation == Some(r.value.validation)
      ensures r.Failure? || s != ProblemStage ==> problemDefinition == old(problemDefinition)
      ensures r.Failure? || s != ObjectivesStage ==> researchObjectives == old(researchObjectives)
      ensures r.Failure? || s != MethodologyStage ==> methodology == old(methodology)
      ensures r.Failure? || s != DataCollectionStage ==> dataCollection == old(dataCollection)
      ensures r.Failure? || s != QualityControlStage ==> qualityValidation == old(qualityValidation)
      ensures userProfile == old(userProfile)
    {
      if AgentKey(s) !in agents {
        return Failure(KeyError(AgentKey(s)));
      }
      EntersIsLegal(context.currentState, s);
      r := RunStage(s, agents[AgentKey(s)], prompt, env);
    }

    /** The records stored so far. */
    function Stored(): Records
      reads this
    {
      Records(userProfile, problemDefinition, researchObjectives, methodology, dataCollection, qualityValidation)
    }

    /**
     * `run_problem_formulation`: the problem-formulation agent is asked with
     * the profile prompt, carrying the feedback and, when the feedback is
     * non-empty, the current definition; its answer becomes the definition.
     */
    method RunProblemFormulation(agents: map<string, Agent>, feedback: Option<string>, env: Environment) returns (r: Result<ProblemDefinition, PyError>)
      requires Valid() && Enters(context.currentState, ProblemStage)
      modifies this, context
      ensures Valid()
      ensures context.refinementCount == old(context.refinementCount)
      ensures context.maxRefinements == old(context.maxRefinements)
      ensures context.errorMessage == old(context.errorMessage)
      ensures AgentKey(ProblemStage) !in agents ==> r == Failure(KeyError(AgentKey(ProblemStage)))
      ensures AgentKey(ProblemStage) in agents && userProfile.None? ==> r == Failure(NoneAttribute("total_timeline"))
      ensures r.Success? ==> context.currentState == ProblemFormulation && |context.stateHistory| == old(|context.stateHistory|) + 1
      ensures r.Failure? && AgentKey(ProblemStage) in agents ==> context.currentState == Error
      ensures userProfile == old(userProfile) && researchObjectives == old(researchObjectives) && methodology == old(methodology)
              && dataCollection == old(dataCollection) && qualityValidation == old(qualityValidation)
      ensures r.Success? ==> problemDefinition == Some(r.value)
      ensures r.Failure? ==> problemDefinition == old(problemDefinition)
      ensures r.Success? ==> userProfile.Some? && ProblemAnswered(userProfile.value, r.value, agents[AgentKey(ProblemStage)], feedback, old(problemDefinition),
                                                 old(|context.stateHistory|) + 1, env)
    {
      var out := RunAgentStage(ProblemStage, agents, PromptForProblem(feedback), env);
      if out.Failure? {
        return Failure(out.error);
      }
      return Success(out.value.definition);
    }

    /**
     * `run_objectives`: the objectives agent is asked with the prompt
     * formatted from the profile and the definition.
     */
    method RunObjectives(agents: map<string, Agent>, env: Environment) returns (r: Result<ResearchObjectives, PyError>)
      requires Valid() && Enters(context.currentState, ObjectivesStage)
      modifies this, context
      ensures Valid()
      ensures context.refinementCount == old(context.refinementCount)
      ensures context.maxRefinements == old(context.maxRefinements)
      ensures context.errorMessage == old(context.errorMessage)
      ensures AgentKey(ObjectivesStage) !in agents ==> r == Failure(KeyError(AgentKey(ObjectivesStage)))
      ensures AgentKey(ObjectivesStage) in agents && userProfile.None? ==> r == Failure(NoneAttribute("total_timeline"))
      ensures AgentKey(ObjectivesStage) in agents && userProfile.Some? && problemDefinition.None? ==>
                r == Failure(NoneAttribute("secondary_questions"))
      ensures r.Success? ==> context.currentState == Objectives && |context.stateHistory| == old(|context.stateHistory|) + 1
      ensures r.Failure? && AgentKey(ObjectivesStage) in agents ==> context.currentState == Error
      ensures userProfile == old(userProfile) && problemDefinition == old(problemDefinition) && methodology == old(methodology)
              && dataCollection == old(dataCollection) && qualityValidation == old(qualityValidation)
      ensures r.Success? ==> researchObjectives == Some(r.value)
      ensures r.Failure? ==> researchObjectives == old(researchObjectives)
      ensures r.Success? ==> userProfile.Some? && problemDefinition.Some?
                             && ObjectivesAnswered(userProfile.value, problemDefinition.value, r.value, agents[AgentKey(ObjectivesStage)],
                                                   old(|context.stateHistory|) + 1, env)
    {
      var out := RunAgentStage(ObjectivesStage, agents, PromptForObjectives(), env);
      if out.Failure? {
        return Failure(out.error);
      }
      return Success(out.value.objectives);
    }

    /**
     * `run_methodology`: the methodology agent is asked with the prompt
     * formatted from the profile, the definition and the objectives.
     */
    method RunMethodology(agents: map<string, Agent>, env: Environment) returns (r: Result<MethodologyRecommendation, PyError>)
      requires Valid() && Enters(context.currentState, MethodologyStage)
      modifies this, context
      ensures Valid()
      ensures context.refinementCount == old(context.refinementCount)
      ensures context.maxRefinements == old(context.maxRefinements)
      ensures context.errorMessage == old(context.errorMessage)
      ensures AgentKey(MethodologyStage) !in agents ==> r == Failure(KeyError(AgentKey(MethodologyStage)))
      ensures AgentKey(MethodologyStage) in agents && !(userProfile.Some? && problemDefinition.Some? && researchObjectives.Some?) ==> r.Failure?
      ensures r.Success? ==> context.currentState == Methodology && |context.stateHistory| == old(|context.stateHistory|) + 1
      ensures r.Failure? && AgentKey(MethodologyStage) in agents ==> context.currentState == Error
      ensures userProfile == old(userProfile) && problemDefinition == old(problemDefinition) && researchObjectives == old(researchObjectives)
              && dataCollection == old(dataCollection) && qualityValidation == old(qualityValidation)
      ensures r.Success? ==> methodology == Some(r.value)
      ensures r.Failure? ==> methodology == old(methodology)
      ensures r.Success? ==> userProfile.Some? && problemDefinition.Some? && researchObjectives.Some?
                             && MethodologyAnswered(userProfile.value, problemDefinition.value, researchObjectives.value, r.value,
                                                    agents[AgentKey(MethodologyStage)], old(|context.stateHistory|) + 1, env)
    {
      var out := RunAgentStage(MethodologyStage, agents, PromptForMethodology(), env);
      if out.Failure? {
        return Failure(out.error);
      }
      return Success(out.value.recommendation);
    }

    /**
     * `run_data_collection`: the data-collection agent is asked with the
     * prompt formatted from the profile, the objectives and the methodology.
     */
    method RunDataCollection(agents: map<string, Agent>, env: Environment) returns (r: Result<DataCollectionPlan, PyError>)
      requires Valid() && Enters(context.currentState, DataCollectionStage)
      modifies this, context
      ensures Valid()
      ensures context.refinementCount == old(context.refinementCount)
      ensures context.maxRefinements == old(context.maxRefinements)
      ensures context.errorMessage == old(context.errorMessage)
      ensures AgentKey(DataCollectionStage) !in agents ==> r == Failure(KeyError(AgentKey(DataCollectionStage)))
      ensures AgentKey(DataCollectionStage) in agents && !(userProfile.Some? && researchObjectives.Some? && methodology.Some?) ==> r.Failure?
      ensures r.Success? ==> context.currentState == DataCollection && |context.stateHistory| == old(|context.stateHistory|) + 1
      ensures r.Failure? && AgentKey(DataCollectionStage) in agents ==> context.currentState == Error
      ensures userProfile == old(userProfile) && problemDefinition == old(problemDefinition) && researchObjectives == old(researchObjectives)
              && methodology == old(methodology) && qualityValidation == old(qualityValidation)
      ensures r.Success? ==> dataCollection == Some(r.value)
      ensures r.Failure? ==> dataCollection == old(dataCollection)
      ensures r.Success? ==> userProfile.Some? && researchObjectives.Some? && methodology.Some?
                             && DataCollectionAnswered(userProfile.value, researchObjectives.value, methodology.value, r.value,
                                                       agents[AgentKey(DataCollectionStage)], old(|context.stateHistory|) + 1, env)
    {
      var out := RunAgentStage(DataCollectionStage, agents, PromptForDataCollection(), env);
      if out.Failure? {
        return Failure(out.error);
      }
      return Success(out.value.plan);
    }

    /**
     * `run_quality_control`: the quality agent is asked with the prompt
     * formatted from the profile and the four records after it.
     */
    method RunQualityControl(agents: map<string, Agent>, env: Environment) returns (r: Result<QualityValidation, PyError>)
      requires Valid() && Enters(context.currentState, QualityControlStage)
      modifies this, context
      ensures Valid()
      ensures context.refinementCount == old(context.refinementCount)
      ensures context.maxRefinements == old(context.maxRefinements)
      ensures context.errorMessage == old(context.errorMessage)
      ensures AgentKey(QualityControlStage) !in agents ==> r == Failure(KeyError(AgentKey(QualityControlStage)))
      ensures AgentKey(QualityControlStage) in agents
              && !(userProfile.Some? && problemDefinition.Some? && researchObjectives.Some? && methodology.Some? && dataCollection.Some?)
              ==> r.Failure?
      ensures r.Success? ==> context.currentState == QualityControl && |context.stateHistory| == old(|context.stateHistory|) + 1
      ensures r.Failure? && AgentKey(QualityControlStage) in agents ==> context.currentState == Error
      ensures userProfile == old(userProfile) && problemDefinition == old(problemDefinition) && researchObjectives == old(researchObjectives)
              && methodology == old(methodology) && dataCollection == old(dataCollection)
      ensures r.Success? ==> qualityValidation == Some(r.value)
      ensures r.Failure? ==> qualityValidation == old(qualityValidation)
      ensures r.Success? ==> userProfile.Some? && problemDefinition.Some? && researchObjectives.Some? && methodology.Some?
                             && dataCollection.Some?
                             && QualityAnswered(userProfile.value, problemDefinition.value, researchObjectives.value,
                                                methodology.value, dataCollection.value, r.value,
                                                agents[AgentKey(QualityControlStage)], old(|context.stateHistory|) + 1, env)
    {
      var out := RunAgentStage(QualityControlStage, agents, PromptForQualityControl(), env);
      if out.Failure? {
        return Failure(out.error);
      }
      return Success(out.value.validation);
    }

    /**
     * The first three stages of a pass: problem formulation (the only one
     * given the feedback), objectives and methodology.
     */
    method RunFrontStages(agents: map<string, Agent>, feedback: Option<string>, env: Environment) returns (r: Result<(), PyError>)
      requires Valid()
      requires context.currentState == Interviewing || context.currentState == Refinement
      modifies this, context
      ensures Valid()
      ensures context.refinementCount == old(context.refinementCount)
      ensures context.maxRefinements == old(context.maxRefinements)
      ensures context.errorMessage == old(context.errorMessage)
      ensures userProfile == old(userProfile)
      ensures r.Success? ==> context.currentState == Methodology && |context.stateHistory| == old(|context.stateHistory|) + 3
      ensures r.Success? ==> FrontStored(userProfile, problemDefinition, researchObjectives, methodology, agents, feedback,
                                         old(problemDefinition), old(|context.stateHistory|), env)
      ensures r.Failure? && HasAgents(agents, true) ==> context.currentState == Error
    {
      var definition := RunProblemFormulation(agents, feedback, env);
      if definition.Failure? {
        return Failure(definition.error);
      }
      var objectives := RunObjectives(agents, env);
      if objectives.Failure? {
        return Failure(objectives.error);
      }
      var recommendation := RunMethodology(agents, env);
      if recommendation.Failure? {
        return Failure(recommendation.error);
      }
      return Success(());
    }

    /**
     * One pass of the five stages, from Interviewing or Refinement up to
     * quality control. Each stage's agent is looked up before the stage
     * starts; only the problem-formulation stage gets the feedback.
     */
    method RunPass(agents: map<string, Agent>, feedback: Option<string>, env: Environment) returns (r: Result<QualityValidation, PyError>)
      requires Valid()
      requires context.currentState == Interviewing || context.currentState == Refinement
      modifies this, context
      ensures Valid()
      ensures context.refinementCount == old(context.refinementCount)
      ensures context.maxRefinements == old(context.maxRefinements)
      ensures context.errorMessage == old(context.errorMessage)
      ensures userProfile == old(userProfile)
      ensures r.Success? ==> context.currentState == QualityControl && qualityValidation == Some(r.value)
      ensures r.Success? ==> |context.stateHistory| == old(|context.stateHistory|) + 5
      ensures r.Success? ==> PassStored(Stored(), agents, feedback, old(problemDefinition), old(|context.stateHistory|), env)
      ensures r.Failure? && HasAgents(agents, true) ==> context.currentState == Error
    {
      var front := RunFrontStages(agents, feedback, env);
      if front.Failure? {
        return Failure(front.error);
      }
      var plan := RunDataCollection(agents, env);
      if plan.Failure? {
        return Failure(plan.error);
      }
      var quality := RunQualityControl(agents, env);
      if quality.Failure? {
        return Failure(quality.error);
      }
      return Success(quality.value);
    }

    /**
     * What follows a pass: Complete when quality control passed, otherwise
     * Refinement when one is wanted and allowed (`again`), otherwise
     * Complete with the warning.
     */
    method Conclude(q: QualityValidation, env: Environment) returns (again: bool)
      requires Valid() && context.currentState == QualityControl
      modifies context
      ensures Valid()
      ensures context.maxRefinements == old(context.maxRefinements)
      ensures context.errorMessage == old(context.errorMessage)
      ensures again <==> !q.validationPassed && q.requiresRefinement && old(context.refinementCount) < context.maxRefinements
      ensures again ==> && context.currentState == Refinement && context.refinementCount == old(context.refinementCount) + 1
                        && |context.stateHistory| == old(|context.stateHistory|) + 1
      ensures !again ==> && context.currentState == Complete && context.refinementCount == old(context.refinementCount)
                         && |context.stateHistory| > 0
                         && ClosedAfterQuality(context.stateHistory[|context.stateHistory| - 1], q,
                                               context.refinementCount, context.maxRefinements)
    {
      if q.validationPassed {
        var t := TransitionTo(Complete, None, env);
        return false;
      } else if q.requiresRefinement && context.CanRefine() {
        var t := TransitionTo(Refinement, Some([("iteration", JInt(context.refinementCount + 1)),
                                                ("issues", JInt(|q.issuesIdentified|))]), env);
        return true;
      } else {
        var t := TransitionTo(Complete, Some(GaveUpMetadata), env);
        return false;
      }
    }

    /** A pass of the five stages given `feedback`, then the decision after it. */
    method Round(agents: map<string, Agent>, feedback: Option<string>, env: Environment)
      returns (r: Result<bool, PyError>, ghost pass: Pass)
      requires Valid()
      requires context.currentState == Interviewing || context.currentState == Refinement
      modifies this, context
      ensures Valid()
      ensures context.maxRefinements == old(context.maxRefinements)
      ensures context.errorMessage == old(context.errorMessage)
      ensures r.Failure? ==> context.refinementCount == old(context.refinementCount)
      ensures r.Failure? && HasAgents(agents, true) ==> context.currentState == Error
      ensures r.Success? ==> qualityValidation.Some?
      ensures r.Success? ==> (r.value <==> && !qualityValidation.value.validationPassed
                                           && qualityValidation.value.requiresRefinement
                                           && old(context.refinementCount) < context.maxRefinements)
      ensures r.Success? && r.value ==> && context.currentState == Refinement
                                        && context.refinementCount == old(context.refinementCount) + 1
                                        && |context.stateHistory| == old(|context.stateHistory|) + 6
      ensures r.Success? && !r.value ==> Closed() && context.refinementCount == old(context.refinementCount)
      // The records stored are what the agents answered in this pass, the problem stage given `feedback`.
      ensures r.Success? ==> && pass == Pass(feedback, old(problemDefinition), old(|context.stateHistory|), Stored(),
                                             qualityValidation.value)
                             && PassRan(pass, agents, env)
    {
      var q := RunPass(agents, feedback, env);
      if q.Failure? {
        pass := *;
        return Failure(q.error), pass;
      }
      pass := Pass(feedback, old(problemDefinition), old(|context.stateHistory|), Stored(), q.value);
      var again := Conclude(q.value, env);
      return Success(again), pass;
    }

    /**
     * The run so far, while the loop goes round again: in Refinement after
     * the passes run since the pass that began with definition `pd0`, `h0`
     * recorded moves and `c0` refinements. The passes form the feedback
     * chain, each stored what its agents answered and failed asking for
     * refinement, and the last one's records are the ones stored.
     */
    ghost predicate Refining(passes: seq<Pass>, agents: map<string, Agent>, env: Environment,
                             pd0: Option<ProblemDefinition>, h0: nat, c0: int)
      reads this, context
    {
      && context.currentState == Refinement
      && passes != [] && |passes| == context.refinementCount - c0
      && FeedbackChain(passes) && PassesRan(passes, agents, env)
      && passes[0].prior == pd0 && passes[0].start == h0
      && qualityValidation.Some?
      && passes[|passes| - 1].records == Stored()
      && passes[|passes| - 1].validation == qualityValidation.value
      && |context.stateHistory| == passes[|passes| - 1].start + 6
      && (forall i :: 0 <= i < |passes| ==>
            !passes[i].validation.validationPassed && passes[i].validation.requiresRefinement)
    }

    /**
     * A finished loop: the passes form the feedback chain from the pass that
     * began with definition `pd0`, `h0` recorded moves and `c0` refinements;
     * each stored what its agents answered; there is one more pass than
     * refinements; every pass but the last failed asking for refinement; and
     * the last one's records, validation included, are the ones stored.
     */
    ghost predicate RefinedRun(passes: seq<Pass>, agents: map<string, Agent>, env: Environment,
                               pd0: Option<ProblemDefinition>, h0: nat, c0: int)
      reads this, context
    {
      && passes != [] && |passes| == context.refinementCount - c0 + 1
      && FeedbackChain(passes) && PassesRan(passes, agents, env)
      && passes[0].prior == pd0 && passes[0].start == h0
      && qualityValidation.Some?
      && passes[|passes| - 1].records == Stored()
      && passes[|passes| - 1].validation == qualityValidation.value
      && (forall i :: 0 <= i < |passes| - 1 ==>
            !passes[i].validation.validationPassed && passes[i].validation.requiresRefinement)
    }

    /**
     * One iteration of the refinement loop: the feedback (none on the first
     * pass, else the stored validation's recommendations joined by
     * newlines), a pass given it, and the decision after the pass.
     */
    method Iteration(agents: map<string, Agent>, env: Environment, ghost passes: seq<Pass>,
                     ghost pd0: Option<ProblemDefinition>, ghost h0: nat, ghost c0: int)
      returns (r: Result<bool, PyError>, ghost pass: Pass)
      requires Valid()
      requires context.currentState == Interviewing ==> && passes == [] && problemDefinition == pd0
                                                        && |context.stateHistory| == h0 && context.refinementCount == c0
      requires context.currentState != Interviewing ==> Refining(passes, agents, env, pd0, h0, c0)
      modifies this, context
      ensures Valid()
      ensures context.maxRefinements == old(context.maxRefinements)
      ensures context.errorMessage == old(context.errorMessage)
      ensures r.Failure? ==> context.refinementCount == old(context.refinementCount)
      ensures r.Failure? && HasAgents(agents, true) ==> context.currentState == Error
      ensures r.Success? && r.value ==> && old(context.refinementCount) < context.maxRefinements
                                        && context.refinementCount == old(context.refinementCount) + 1
                                        && Refining(passes + [pass], agents, env, pd0, h0, c0)
      ensures r.Success? && !r.value ==> && Closed() && context.refinementCount == old(context.refinementCount)
                                         && RefinedRun(passes + [pass], agents, env, pd0, h0, c0)
    {
      var feedback: Option<string> := None;
      if context.currentState == Refinement {
        feedback := Some(Join("\n", qualityValidation.value.recommendations));
      }
      r, pass := Round(agents, feedback, env);
      if r.Success? {
        ChainExtends(passes, pass);
        PassesRanExtend(passes, pass, agents, env);
      }
    }

    /**
     * The refinement loop of `run_workflow`: passes of the five stages until
     * quality control passes or no refinement is wanted or allowed. Each
     * pass after the first gives the problem stage the previous validation's
     * recommendations, joined by newlines, as feedback.
     */
    method Refine(agents: map<string, Agent>, env: Environment) returns (r: Result<(), PyError>, ghost passes: seq<Pass>)
      requires Valid() && context.currentState == Interviewing
      modifies this, context
      ensures Valid()
      ensures context.maxRefinements == old(context.maxRefinements)
      ensures context.errorMessage == old(context.errorMessage)
      ensures old(context.refinementCount) <= (if context.maxRefinements > 0 then context.maxRefinements else 0) ==>
                context.refinementCount <= (if context.maxRefinements > 0 then context.maxRefinements else 0)
      ensures r.Failure? && HasAgents(agents, true) ==> context.currentState == Error
      ensures r.Success? ==> Closed()
      ensures r.Success? ==> RefinedRun(passes, agents, env, old(problemDefinition), old(|context.stateHistory|),
                                        old(context.refinementCount))
    {
      passes := [];
      ghost var bounded := context.refinementCount <= (if context.maxRefinements > 0 then context.maxRefinements else 0);
      while true
        invariant Valid()
        invariant context.maxRefinements == old(context.maxRefinements)
        invariant context.errorMessage == old(context.errorMessage)
        invariant bounded ==> context.refinementCount <= (if context.maxRefinements > 0 then context.maxRefinements else 0)
        invariant context.currentState == Interviewing ==> && passes == [] && problemDefinition == old(problemDefinition)
                                                           && |context.stateHistory| == old(|context.stateHistory|)
                                                           && context.refinementCount == old(context.refinementCount)
        invariant context.currentState != Interviewing ==>
                    Refining(passes, agents, env, old(problemDefinition), old(|context.stateHistory|), old(context.refinementCount))
        decreases context.maxRefinements - context.refinementCount
      {
        var again;
        ghost var pass;
        again, pass := Iteration(agents, env, passes, old(problemDefinition), old(|context.stateHistory|),
                                 old(context.refinementCount));
        if again.Failure? {
          return Failure(again.error), passes;
        }
        if !again.value {
          return Success(()), passes + [pass];
        }
        passes := passes + [pass];
      }
    }

    /**
     * The body of `run_workflow`'s `try`: the interview step, then the
     * refinement loop.
     */
    method Pipeline(agents: map<string, Agent>, initialProfile: Option<UserProfile>, env: Environment) returns (r: Result<(), PyError>, ghost passes: seq<Pass>)
      requires Valid()
      modifies this, context
      ensures Valid()
      ensures context.maxRefinements == old(context.maxRefinements)
      ensures context.errorMessage == old(context.errorMessage)
      // A run starting in Init refines at most `maxRefinements` times.
      ensures old(context.currentState) == Init ==>
                context.refinementCount <= (if context.maxRefinements > 0 then context.maxRefinements else 0)
      // Only a fresh context can run: Interviewing is reachable from Init alone.
      ensures old(context.currentState) != Init ==> r.Failure?
      // With every agent at hand, a fresh run ends Complete or in Error.
      ensures old(context.currentState) == Init && HasAgents(agents, initialProfile.Some?) ==>
                (r.Failure? ==> context.currentState == Error)
      ensures r.Success? ==> context.currentState == Complete && qualityValidation.Some?
      ensures r.Success? ==> |context.stateHistory| > 0 && ClosedAfterQuality(context.stateHistory[|context.stateHistory| - 1],
                                                                              qualityValidation.value, context.refinementCount,
                                                                              context.maxRefinements)
      // The passes run after the interview step: what each was given, what its agents answered, and how it ended.
      ensures r.Success? ==> RefinedRun(passes, agents, env, old(problemDefinition), old(|context.stateHistory|) + 1,
                                        old(context.refinementCount))
    {
      if context.currentState == Init {
        InitHasNoHistory(context.stateHistory);
      }
      var started := StartInterview(agents, initialProfile, env);
      if started.Failure? {
        return Failure(started.error), [];
      }
      assert HasAgents(agents, initialProfile.Some?) ==> HasAgents(agents, true);
      r, passes := Refine(agents, env);
    }

    /** `_generate_final_proposal`: the dump of every stored output. */
    function FinalProposalNow(generatedAt: string): (p: FinalProposal)
      reads this
      ensures p.userProfile.Some? <==> userProfile.Some?
      ensures p.problemDefinition.Some? <==> problemDefinition.Some?
      ensures p.researchObjectives.Some? <==> researchObjectives.Some?
      ensures p.methodology.Some? <==> methodology.Some?
      ensures p.dataCollectionPlan.Some? <==> dataCollection.Some?
      ensures p.qualityValidation.Some? <==> qualityValidation.Some?
    {
      FinalProposal(
        MapOption(userProfile, UserProfileJson),
        MapOption(problemDefinition, ProblemDefinitionJson),
        MapOption(researchObjectives, ResearchObjectivesJson),
        MapOption(methodology, MethodologyRecommendationJson),
        MapOption(dataCollection, DataCollectionPlanJson),
        MapOption(qualityValidation, QualityValidationJson),
        generatedAt)
    }

    /** The `except` branch of `run_workflow`: the context keeps the error's message and nothing else changes. */
    method RecordError(msg: string)
      requires Valid()
      modifies context
      ensures Valid()
      ensures context.errorMessage == Some(msg)
      ensures context.currentState == old(context.currentState) && context.stateHistory == old(context.stateHistory)
      ensures context.refinementCount == old(context.refinementCount)
      ensures context.maxRefinements == old(context.maxRefinements)
    {
      context.errorMessage := Some(msg);
      assert context.Valid();
    }

    /**
     * `run_workflow`: never raises. A failure is recorded in the context's
     * error message and reported with the state reached and the number of
     * refinements; a success reports the proposal and the move history.
     */
    method RunWorkflow(agents: map<string, Agent>, initialProfile: Option<UserProfile>, env: Environment)
      returns (result: WorkflowResult, ghost passes: seq<Pass>)
      requires Valid()
      modifies this, context
      ensures Valid()
      ensures result.refinementIterations == context.refinementCount
      ensures result.Failed? ==> context.errorMessage == Some(result.error) && result.state == context.currentState
      ensures result.Succeeded? ==>
                && context.currentState == Complete
                && context.errorMessage == old(context.errorMessage)
                && qualityValidation.Some?
                && result.validationPassed == qualityValidation.value.validationPassed
                && result.coherenceScore == qualityValidation.value.coherenceScore
                && result.feasibilityScore == qualityValidation.value.feasibilityScore
                && result.proposal == FinalProposalNow(env.generatedAt)
                // The proposal holds the records of the last pass, each what its agent answered.
                && RefinedRun(passes, agents, env, old(problemDefinition), old(|context.stateHistory|) + 1,
                              old(context.refinementCount))
                && |result.workflowHistory| == |context.stateHistory|
                && (forall i :: 0 <= i < |result.workflowHistory| ==>
                      result.workflowHistory[i] == (context.stateHistory[i].fromState, context.stateHistory[i].toState,
                                                    context.stateHistory[i].timestamp))
      ensures result.Succeeded? && !result.validationPassed ==>
                !qualityValidation.value.requiresRefinement || !context.CanRefine()
      ensures old(context.currentState) == Init ==>
                context.refinementCount <= (if context.maxRefinements > 0 then context.maxRefinements else 0)
      ensures old(context.currentState) != Init ==> result.Failed?
      ensures old(context.currentState) == Init && HasAgents(agents, initialProfile.Some?) && result.Failed? ==>
                context.currentState == Error
    {
      var r;
      r, passes := Pipeline(agents, initialProfile, env);
      if r.Failure? {
        var msg := Message(r.error);
        RecordError(msg);
        return Failed(msg, context.currentState, context.refinementCount), passes;
      }
      var q := qualityValidation.value;
      var history := HistoryRows(context.stateHistory);
      return Succeeded(FinalProposalNow(env.generatedAt), context.refinementCount, q.validationPassed,
                       q.coherenceScore, q.feasibilityScore, history), passes;
    }

    /** `get_current_status`. */
    function CurrentStatus(): (s: Status)
      reads this, context
      ensures s.currentState == context.currentState && s.refinementCount == context.refinementCount
      ensures s.maxRefinements == context.maxRefinements && s.errorMessage == context.errorMessage
      ensures s.currentStep == StepName(context.currentState)
      ensures s.progressPercentage == 100 <==> s.currentState == Complete
      ensures s.canRefine <==> s.refinementCount < s.maxRefinements
    {
      Status(context.currentState, context.CurrentStepName(), context.Progress(),
             context.refinementCount, context.maxRefinements, context.CanRefine(), context.errorMessage)
    }
  }

  /** Each component of the proposal decodes back to the record it was dumped from. */
  lemma FinalProposalDecodes(p: FinalProposal, up: Option<UserProfile>, pd: Option<ProblemDefinition>,
                             qv: Option<QualityValidation>)
    requires p.userProfile == MapOption(up, UserProfileJson)
    requires p.problemDefinition == MapOption(pd, ProblemDefinitionJson)
    requires p.qualityValidation == MapOption(qv, QualityValidationJson)
    ensures up.Some? ==> DecodeUserProfile(p.userProfile.value) == Success(up.value)
    ensures pd.Some? ==> DecodeProblemDefinition(p.problemDefinition.value) == Success(pd.value)
    ensures qv.Some? ==> DecodeQualityValidation(p.qualityValidation.value) == Success(qv.value)
  {
    if up.Some? { UserProfileRoundTrip(up.value); }
    if pd.Some? { ProblemDefinitionRoundTrip(pd.value); }
    if qv.Some? { QualityValidationRoundTrip(qv.value); }
  }
}

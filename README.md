# AIDA research-proposal pipeline, modelled in Dafny

This project models the deterministic core of AIDA, a multi-agent pipeline that interviews a graduate student and then drafts a research proposal stage by stage. The stages are problem formulation, objectives, methodology, data collection and quality control, with a bounded refinement loop. The language model itself is not part of the model. Every agent call, and the JSON parser and regex scanner applied to its replies, enters the model as a parameter. The model covers the following, proved against specifications; what it does not capture is listed under "Left out":

- the workflow state machine and its guarded transitions;
- the orchestrator's refinement loop, failure handling, three-strategy JSON extraction and reply-text reduction;
- the stage records and their decoding from JSON;
- the interview turn and the questionnaire;
- the five prompt formatters;
- the evaluation validators, the code-fence cleaner and the evaluation report;
- the academic search helpers and the four citation styles;
- proposal assembly and Markdown rendering;
- the in-memory agent registry, message bus and message router.

Code that mutates state in the source appears here as classes with `modifies` clauses:

- the workflow context, the orchestrator, the registry, the bus, the router and the message log;
- the interview state.

Loops that build lists appear as methods with loop invariants, proved equal to the specification functions the lemmas talk about. Pure computations appear as functions with named results. Python's dictionaries appear as association lists in insertion order, where a lookup finds the last binding. Duck-typed accesses that can raise in the source (`len`, `.get`, `.lower()`, `int(...)`) return a `Result` carrying the Python exception kind.

Module layout, one module per source file:

- helper modules: `Wrappers` (Option and Result), `Text` (Python string helpers), `JsonData` (parsed JSON values, truthiness and `str()`), `Errors` (Python exception kinds);
- `WorkflowState`, `Orchestrator`, `JsonExtraction`, `AgentOutput`;
- `DataModels`, `Interviewer`, `Questionnaire`;
- `PromptParts` plus one module per prompt formatter;
- `Validators`, `SearchWrapper`, `CitationFormatter`, `ProposalBuilder`;
- `AgentRegistryModel`, `Communication`, `MessageRouting`.

## Model

| member | source | states |
|---|---|---|
| WorkflowState.ValueInjective | aida/workflow_state.py:10-21 | the ten states have ten distinct string values |
| WorkflowState.TerminalStates | aida/workflow_state.py:102-117 | a state has no legal successor exactly when it is Complete or Error; every other state may move to Error |
| WorkflowState.OnlyQualityControlBranches | aida/workflow_state.py:109-113 | two distinct non-error successors of one state exist only from QualityControl, and they are Complete and Refinement |
| WorkflowState.RankClimbs | aida/workflow_state.py:102-117 | every legal move climbs the pipeline order except QualityControl to Refinement |
| WorkflowState.PathWithoutRefinementClimbs | aida/workflow_state.py:102-117 | a chain of legal moves that avoids the refinement edge climbs one rank per move |
| WorkflowState.CycleUsesRefinement | aida/workflow_state.py:102-117 | every cycle of legal moves passes through QualityControl to Refinement |
| WorkflowState.NoReturnToStart | aida/workflow_state.py:103-104 | no legal move enters Init, and Interviewing is entered only as the first move from Init |
| WorkflowState.CycleStaysOnRefinementLoop | aida/workflow_state.py:104-114 | every state on a cycle is one of ProblemFormulation, Objectives, Methodology, DataCollection, QualityControl, Refinement |
| WorkflowState.ProgressPercentage | aida/workflow_state.py:68-82 | progress is at most 100, is 100 only at Complete, and is 0 only at Init and Error |
| WorkflowState.ProgressGrows | aida/workflow_state.py:68-82 | progress strictly grows along every legal move except into Error and out of Refinement |
| WorkflowState.StepName | aida/workflow_state.py:84-98 | every state has a non-empty step name |
| WorkflowState.StepNamesDistinct | aida/workflow_state.py:86-97 | no two states share a step name |
| WorkflowState.RefinementsIn | aida/workflow_state.py:60-62 | the number of moves into Refinement is at most the length of the history |
| WorkflowState.WorkflowContext.constructor | aida/workflow_state.py:32-38 | a new context is at Init with an empty history, a zero counter and no error message |
| WorkflowState.WorkflowContext.TransitionTo | aida/workflow_state.py:40-62 | appends exactly one record from the old state to the new one (metadata defaulting to an empty dict), takes the move without a legality check, adds one to the counter exactly for Refinement, and keeps history, state and counter consistent |
| WorkflowState.WorkflowContext.Progress | aida/workflow_state.py:68-82 | the context's progress is at most 100, is 100 exactly when the context is Complete, and is 0 exactly when it is in Init or Error |
| WorkflowState.WorkflowContext.CurrentStepName | aida/workflow_state.py:84-98 | the context's step name is non-empty and is the name of its current state and of no other |
| WorkflowState.StepNameNamesOneState | aida/workflow_state.py:84-98 | a step name identifies its state: any state with the same name is that state |
| WorkflowState.RefinementsInAppend | aida/workflow_state.py:57-62 | appending a record keeps the count of earlier refinements and adds one only for a move into Refinement |
| WorkflowState.RefinementsInPrefix | aida/workflow_state.py:57 | the refinement count of any prefix of the history is at most that of the whole, so the counter never decreases |
| Orchestrator.DecodeOutput | aida/orchestrator.py:313 | a stage's record decodes only from a JSON object, and into that stage's record type |
| Orchestrator.InitHasNoHistory | aida/workflow_state.py:102-117 | no legal move re-enters Init, so a context still in Init has recorded no move |
| Orchestrator.ResearchProposalOrchestrator.constructor | aida/orchestrator.py:40-62 | a new orchestrator has a fresh context in Init with the given refinement budget and no stage outputs |
| Orchestrator.ResearchProposalOrchestrator.TransitionTo | aida/orchestrator.py:77-95 | an illegal move fails with the "Invalid transition" ValueError and leaves the context untouched; a legal one appends exactly one record, takes the move and counts refinements |
| Orchestrator.ResearchProposalOrchestrator.Fail | aida/orchestrator.py:316-319 | a stage error moves the workflow into Error and is raised again unchanged |
| Orchestrator.ResearchProposalOrchestrator.RunInterviewer | aida/orchestrator.py:246-280 | the interviewer stage moves into Interviewing, returns a profile already held, and otherwise fails with NotImplementedError after moving into Error |
| Orchestrator.ResearchProposalOrchestrator.PromptForProblem | aida/orchestrator.py:296-300 | fails with the `total_timeline` AttributeError exactly when no profile is stored; otherwise the problem prompt, which carries the stored definition's refinement block exactly when a definition is stored and the feedback is non-empty |
| Orchestrator.ResearchProposalOrchestrator.PromptForObjectives | aida/orchestrator.py:329-332 | is built exactly when the profile and the definition are stored; otherwise fails with the AttributeError of the first of them the formatter reads (`total_timeline`, then `secondary_questions`) |
| Orchestrator.ResearchProposalOrchestrator.PromptForMethodology | aida/orchestrator.py:356-360 | is built exactly when the profile, the definition and the objectives are stored; a missing profile fails on `total_timeline`, missing objectives on `specific_objectives` |
| Orchestrator.ResearchProposalOrchestrator.PromptForDataCollection | aida/orchestrator.py:384-388 | is built exactly when the profile, the objectives and the methodology are stored; a missing profile fails on `total_timeline`, missing objectives on `specific_objectives` |
| Orchestrator.ResearchProposalOrchestrator.PromptForQualityControl | aida/orchestrator.py:412-418 | is built exactly when all five records before quality control are stored; a missing profile fails on `total_timeline` |
| Orchestrator.ResearchProposalOrchestrator.Store | aida/orchestrator.py:313 | a stage's record replaces only that stage's stored output |
| Orchestrator.ResearchProposalOrchestrator.RunStage | aida/orchestrator.py:282-433 | an illegal entry move fails with the Invalid-transition error and changes nothing; otherwise the move is made and the result is exactly the stage's outcome for the prompt, asked as the next move; on success the record is stored in the stage's own field and the state is the stage's, on failure the state is Error and no record changes |
| Orchestrator.ResearchProposalOrchestrator.Attempt | aida/orchestrator.py:296-313 | a prompt that could not be built fails with its own exception; otherwise the result is exactly the stage's outcome: the agent's answer, the JSON extracted from it with the stage's own two required keys, and the stage's record built from that dict |
| Orchestrator.ResearchProposalOrchestrator.RunAgentStage | aida/orchestrator.py:467-494 | a missing agent fails with that key's KeyError before the stage starts; otherwise the result is exactly that agent's stage outcome, a success ending in the stage's state with the record stored and a failure ending in Error |
| Orchestrator.StageOutcome | aida/orchestrator.py:302-313 | a stage's outcome, when it succeeds, is a record of that stage |
| Orchestrator.StageOutcomeFromAnswer | aida/orchestrator.py:302-313 | an agent that raises fails the stage with its exception; a record comes only from a successful answer whose extracted JSON is a dict holding every one of the stage's required keys, decoded by the stage's own record model |
| Orchestrator.ResearchProposalOrchestrator.RunProblemFormulation | aida/orchestrator.py:282-319 | a missing agent fails with its KeyError, a missing profile with the `total_timeline` AttributeError; on success the state is ProblemFormulation, only the definition changes, and it is what the agent answered to the profile prompt carrying the feedback and, with non-empty feedback, the prior definition; a failure ends in Error |
| Orchestrator.ResearchProposalOrchestrator.RunObjectives | aida/orchestrator.py:322-346 | a missing agent fails with its KeyError, a missing profile or definition with the first AttributeError; on success the state is Objectives, only the objectives change, and they are what the agent answered to the prompt formatted from the profile and the definition; a failure ends in Error |
| Orchestrator.ResearchProposalOrchestrator.RunMethodology | aida/orchestrator.py:349-374 | a missing agent fails with its KeyError and a missing input record fails the stage; on success the state is Methodology, only the methodology changes, and it is what the agent answered to the prompt formatted from the profile, definition and objectives; a failure ends in Error |
| Orchestrator.ResearchProposalOrchestrator.RunDataCollection | aida/orchestrator.py:377-402 | a missing agent fails with its KeyError and a missing input record fails the stage; on success the state is DataCollection, only the plan changes, and it is what the agent answered to the prompt formatted from the profile, objectives and methodology; a failure ends in Error |
| Orchestrator.ResearchProposalOrchestrator.RunQualityControl | aida/orchestrator.py:405-432 | a missing agent fails with its KeyError and a missing input record fails the stage; on success the state is QualityControl, only the validation changes, and it is what the agent answered to the prompt formatted from the five records before it; a failure ends in Error |
| Orchestrator.ResearchProposalOrchestrator.RunFrontStages | aida/orchestrator.py:466-482 | problem formulation, objectives and methodology run in order from Interviewing or Refinement; on success the state is Methodology after three moves and each of the three records is what its agent answered to the prompt formatted from the records before it, the feedback going to problem formulation alone; a failure with the agents present ends in Error |
| Orchestrator.ResearchProposalOrchestrator.Conclude | aida/orchestrator.py:497-525 | after quality control the loop goes round again exactly when validation failed, refinement was requested and the budget is not spent, moving into Refinement and counting it; otherwise it ends in Complete with the counter unchanged |
| Orchestrator.ResearchProposalOrchestrator.Round | aida/orchestrator.py:466-525 | a pass given `feedback`, then the decision: a failed pass leaves the refinement count alone; a successful one returns the pass, whose five stored records are what the agents answered (the problem stage given `feedback` and the prior definition, starting after the moves recorded before it), and goes round again exactly when the validation failed, asked for refinement and the count was below the budget, then in Refinement six moves on with the count one higher, and otherwise closes the run |
| Orchestrator.ChainExtends | aida/orchestrator.py:462-465 | a pass whose feedback is the previous validation's recommendations joined by newlines, whose prior definition is the previous pass's and which starts six moves later continues the feedback chain |
| Orchestrator.ResearchProposalOrchestrator.Iteration | aida/orchestrator.py:460-525 | one turn of the loop: no feedback on the first pass, else the stored validation's recommendations joined by newlines; a pass that goes round again extends the run (`Refining`) with a pass that follows the previous one, and one that stops closes the run with the finished passes (`RefinedRun`); a failure leaves the count alone |
| Orchestrator.ResearchProposalOrchestrator.Refine | aida/orchestrator.py:460-525 | the loop never raises its count past the budget; on success the run is closed and its passes (`RefinedRun`) form the feedback chain, each storing what its agents answered, the first starting from the definition and moves before the loop, every pass but the last having failed and asked for refinement, and the stored records, validation included, being the last pass's; a failure with the agents present ends in Error |
| Orchestrator.ResearchProposalOrchestrator.StartInterview | aida/orchestrator.py:447-457 | a given profile is stored and the workflow moves into Interviewing; without one the interviewer stage runs; only a context in Init can start |
| Orchestrator.ResearchProposalOrchestrator.RunPass | aida/orchestrator.py:460-495 | one pass runs the five stages in order; on success it ends in QualityControl after five moves, every stored record is what its agent answered to the prompt formatted from the records before it, only the problem stage getting the feedback, and the result is the stored validation; a failure with the agents present ends in Error |
| Orchestrator.ResearchProposalOrchestrator.Pipeline | aida/orchestrator.py:447-525 | a run from Init refines at most max_refinements times; a success ends in Complete with the closing move's metadata following the verdict, and its passes after the interview move form the feedback chain: the first gets no feedback, each later one the previous validation's recommendations joined by newlines and the previous definition, each pass stores what its agents answered to those prompts, every pass but the last failed and asked for refinement, and the stored records are the last pass's; a failure with every agent present ends in Error |
| Orchestrator.ResearchProposalOrchestrator.FinalProposalNow | aida/orchestrator.py:569-584 | each component of the final proposal is present exactly when its stage output is stored |
| Orchestrator.ResearchProposalOrchestrator.RecordError | aida/orchestrator.py:557-559 | the context keeps the message as `error_message`, and its state, history and counters are unchanged |
| Orchestrator.HistoryRows | aida/orchestrator.py:546-553 | one `(from, to, timestamp)` row per recorded transition, in order |
| Orchestrator.ResearchProposalOrchestrator.RunWorkflow | aida/orchestrator.py:435-567 | never raises: a failure stores its message and reports the state reached and the refinement count; a success is Complete and reports the final proposal, dumped from the records the agents answered in the last pass of the feedback chain, the validation verdict, the coherence and feasibility scores of that validation, and the move history record by record |
| Orchestrator.ResearchProposalOrchestrator.CurrentStatus | aida/orchestrator.py:586-601 | the status reports the context's state, counters and error, its step name, 100 percent exactly at Complete, and whether the counter is below the budget |
| Orchestrator.FinalProposalDecodes | aida/orchestrator.py:576-582 | every dumped component of the final proposal decodes back to the stored record |
| JsonExtraction.AllKeysIn | aida/orchestrator.py:121 | on a dict the key check holds exactly when every required key is present; on a value that is not a container it raises TypeError; with no keys it holds |
| JsonExtraction.TryWhole | aida/orchestrator.py:119-133 | a whole-text strategy passes over undecodable text, returns the decoded value when no keys are required or all are present, and otherwise lets the next strategy run |
| JsonExtraction.FirstAcceptable | aida/orchestrator.py:140-157 | a brace-pattern match is only taken when it decodes to a non-empty dict holding every required key |
| JsonExtraction.FirstAcceptableIsFirst | aida/orchestrator.py:140-157 | strategy 3 finds a value exactly when some match is acceptable, and then returns the first acceptable match in order of appearance |
| JsonExtraction.NoJson | aida/orchestrator.py:160-163 | the final error is a ValueError with the fixed message and at most 300 characters of preview |
| JsonExtraction.ExtractJson | aida/orchestrator.py:97-163 | the extraction loop returns what the three strategies in order return |
| JsonExtraction.DirectParseFirst | aida/orchestrator.py:119-122 | when the stripped text decodes and holds the keys, that value wins |
| JsonExtraction.NoKeysTakesAnyValue | aida/orchestrator.py:119-133 | without required keys the first two strategies accept any decoded value, not only dicts |
| JsonExtraction.ExtractedDictHasKeys | aida/orchestrator.py:118-157 | a dict that is extracted holds every required key |
| JsonExtraction.FailurePreviewBounded | aida/orchestrator.py:159-163 | when every strategy fails the result is the ValueError whose preview is the first 300 characters of the answer |
| AgentOutput.LastTextEmpty | aida/orchestrator.py:206-214 | no answer is found exactly when every text part is blank |
| AgentOutput.LastTextIsLast | aida/orchestrator.py:210-214 | the answer is the text of a non-blank part after which every part is blank |
| AgentOutput.LastTextAppend | aida/orchestrator.py:210-214 | a later part overwrites the answer exactly when it is non-blank; texts are never concatenated |
| AgentOutput.HistoryText | aida/orchestrator.py:228-231 | a history answer comes from the first part of a non-empty last history entry |
| AgentOutput.Answer | aida/orchestrator.py:166-244 | the answer is non-empty; it is the last non-blank event text, else the history text, else the empty-output ValueError; an agent exception passes through |
| AgentOutput.FallbackAcceptsBlank | aida/orchestrator.py:228-235 | the history fallback accepts whitespace-only text, unlike the event loop |
| AgentOutput.LatestText | aida/orchestrator.py:195-214 | the loop over one event's parts keeps the last non-blank text, else the text so far |
| AgentOutput.ExecuteAgent | aida/orchestrator.py:166-244 | the event loop and its fallback compute exactly the answer above |
| DataModels.AsStr | academic_research/data_models.py:9 | a `str` field accepts exactly JSON strings, unchanged |
| DataModels.AsInt | academic_research/data_models.py:8 | an `int` field takes an int unchanged, a bool or a whole float as its whole number, and a string as `IntFromText` reads it; no other value is accepted |
| DataModels.IntFromText | academic_research/data_models.py:16 | a string reads as the integer `int(s)` takes from it, or else, once stripped, as an integer literal followed by a point and only zeros |
| DataModels.ZeroFractionLiteral | academic_research/data_models.py:16 | a value is read only from text whose part after its first point is all zeros, and it is the integer literal before the point |
| DataModels.PointZeroIgnored | academic_research/data_models.py:16 | an integer literal followed by ".0" reads as the literal alone |
| DataModels.IntTextRoundTrip | academic_research/data_models.py:16 | `str(i)` and `str(float(i))` both read back as `i` in an `int` field |
| DataModels.AsFloat | academic_research/data_models.py:126-134 | a `float` field takes every number with its value, a float keeping its text too, and a string as `FloatFromText` reads it; no other value is accepted |
| DataModels.FloatFromTextRange | academic_research/data_models.py:126-134 | a float read from a string is zero or of magnitude from 0.0001, and below 10 ** 16 in magnitude |
| DataModels.FloatTextRoundTrip | academic_research/data_models.py:126-134 | the text shown for a float read from a string reads back as the same float |
| DataModels.NonzeroLiteralFloat | academic_research/data_models.py:126-134 | a literal of at most 15 digits without a point or a leading zero reads as its whole number, shown with ".0" after it |
| DataModels.ZeroLiteralFloat | academic_research/data_models.py:126-134 | "0" and "-0" read as zero, shown with ".0" after them |
| DataModels.IntFloatTextAgree | academic_research/data_models.py:126-134 | a string holding a non-zero integer of at most 15 digits reads in a `float` field as the float of that integer |
| DataModels.AsBool | academic_research/data_models.py:123-125 | a `bool` field takes a bool unchanged, a number exactly when it is 0 or 1 (true for 1), and a string exactly when, lower-cased, it is one of the true or false words (true for the true words); no other value is accepted |
| DataModels.BoolTextIgnoresCase | academic_research/data_models.py:123-125 | letter case does not change how a string reads in a `bool` field |
| DataModels.BoolTextRoundTrip | academic_research/data_models.py:123-125 | `str(b)` reads back as `b` in a `bool` field |
| DataModels.AsStrList | academic_research/data_models.py:18-20 | a `List[str]` field accepts exactly arrays of strings, item by item |
| DataModels.StrListRoundTrip | academic_research/data_models.py:18-20 | a dumped list of strings decodes back to itself |
| DataModels.AsOptStr | academic_research/data_models.py:21 | an `Optional[str]` field accepts exactly a string or null |
| DataModels.AsDict | academic_research/data_models.py:69-76 | a `Dict[str, Any]` field accepts exactly JSON objects |
| DataModels.AsDictList | academic_research/data_models.py:135-138 | a `List[Dict]` field accepts exactly arrays of objects |
| DataModels.DictList | academic_research/data_models.py:135-138 | a dumped list of dicts decodes back to itself |
| DataModels.OptStrJson | academic_research/data_models.py:21 | a dumped optional string decodes back to itself |
| DataModels.Required | academic_research/data_models.py:13-17 | a required field succeeds exactly when its key is present with a value of the declared type, and yields that value |
| DataModels.Defaulted | academic_research/data_models.py:18-21 | a defaulted field yields its default when the key is absent, and otherwise succeeds exactly when the value has the declared type |
| DataModels.AsMapping | academic_research/data_models.py:6-149 | a record is only built from a JSON object |
| DataModels.DecodeTimeline | academic_research/data_models.py:6-9 | a timeline decodes only from a dict holding both value and unit |
| DataModels.TimelineRoundTrip | academic_research/data_models.py:6-9 | a dumped timeline decodes back to itself |
| DataModels.DecodeUserProfile | academic_research/data_models.py:11-21 | a profile decodes only from a dict holding its five required keys |
| DataModels.UserProfileKeysDistinct | academic_research/data_models.py:11-21 | a dumped profile has each key once |
| DataModels.UserProfileRoundTrip | academic_research/data_models.py:11-21 | a dumped profile decodes back to itself |
| DataModels.UserProfileDefaults | academic_research/data_models.py:11-21 | the five required fields suffice: the lists default to empty and the additional context to None |
| DataModels.DecodeLiteratureEntry | academic_research/data_models.py:30-35 | an entry decodes only from a dict holding title, url and relevance note |
| DataModels.LiteratureEntryRoundTrip | academic_research/data_models.py:30-35 | a dumped entry decodes back to itself |
| DataModels.AsLiteratureList | academic_research/data_models.py:59-62 | a literature list decodes only from an array, one entry per item |
| DataModels.DecodeEntries | academic_research/data_models.py:59-62 | a list of entries decodes only when every item decodes, each to the entry at its position |
| DataModels.LiteratureListRoundTrip | academic_research/data_models.py:59-62 | a dumped list of entries decodes back to itself |
| DataModels.EntriesRoundTrip | academic_research/data_models.py:59-62 | the items of a dumped list of entries decode back to the entries |
| DataModels.DecodeProblemDefinition | academic_research/data_models.py:53-63 | a problem definition decodes only from a dict holding statement and main question |
| DataModels.ProblemDefinitionRoundTrip | academic_research/data_models.py:53-63 | a dumped problem definition decodes back to itself |
| DataModels.ProblemDefinitionDefaults | academic_research/data_models.py:53-63 | statement and main question suffice; the four lists default to empty |
| DataModels.DecodeResearchObjectives | academic_research/data_models.py:65-76 | objectives decode only from a dict holding the general and specific objectives |
| DataModels.ResearchObjectivesRoundTrip | academic_research/data_models.py:65-76 | dumped objectives decode back to themselves |
| DataModels.ResearchObjectivesDefaults | academic_research/data_models.py:65-76 | the two required fields suffice; the notes and the alignment check default to empty dicts |
| DataModels.DecodeMethodologyRecommendation | academic_research/data_models.py:78-94 | a methodology decodes only from a dict holding its three required keys |
| DataModels.MethodologyRecommendationRoundTrip | academic_research/data_models.py:78-94 | a dumped methodology decodes back to itself |
| DataModels.MethodologyTypeIsFree | academic_research/data_models.py:81 | any string is accepted as the methodology type |
| DataModels.DecodeDataCollectionPlan | academic_research/data_models.py:96-119 | a plan decodes only from a dict holding the techniques and the sample size |
| DataModels.DataCollectionPlanRoundTrip | academic_research/data_models.py:96-119 | a dumped plan decodes back to itself |
| DataModels.SampleSizeMustBeString | academic_research/data_models.py:109-111 | a number given as the sample size is rejected |
| DataModels.DataCollectionPlanDefaults | academic_research/data_models.py:96-119 | techniques and sample size suffice; every other field defaults to empty |
| DataModels.DecodeQualityValidation | academic_research/data_models.py:121-149 | a validation decodes only from a dict holding its five required keys |
| DataModels.DecodeScores | academic_research/data_models.py:126-134 | the three scores decode only when all three keys are present |
| DataModels.QualityValidationKeysDistinct | academic_research/data_models.py:121-149 | a dumped validation has each key once |
| DataModels.QualityValidationFields | academic_research/data_models.py:121-149 | each key of a dumped validation reads back its own field |
| DataModels.DecodesQualityValidation | academic_research/data_models.py:121-149 | a dict holding each field of a validation under its key decodes to that validation |
| DataModels.QualityValidationRoundTrip | academic_research/data_models.py:121-149 | a dumped validation decodes back to itself |
| DataModels.ScoresAreUnbounded | academic_research/data_models.py:126-134 | any numbers are accepted as scores; the record does not enforce the documented ranges |
| DataModels.InterviewState.constructor | academic_research/data_models.py:23-28 | a new interview state is at question 0, not complete, with no answers and no history |
| Interviewer.PyIndex | academic_research/sub_agents/interviewer/agent.py:95 | list indexing succeeds exactly for indices in range, negative ones counting from the end |
| Interviewer.Reprompt | academic_research/sub_agents/interviewer/agent.py:122 | a rejected answer is answered with the model's next_message, else the non-empty clarification prompt, else the question text |
| Interviewer.Turn | academic_research/sub_agents/interviewer/agent.py:48-125 | a completed interview answers "already complete" and changes nothing; an undecodable reply changes nothing and asks to repeat; an accepted answer is stored under the question's field and the index advances by one, completing exactly at the last question; a rejected one changes nothing |
| Interviewer.ProcessTurn | academic_research/sub_agents/interviewer/agent.py:48-125 | the in-place update of the state object makes exactly the change and returns exactly the result described by the turn above; the conversation history is untouched |
| Interviewer.AcceptedStep | academic_research/sub_agents/interviewer/agent.py:97-111 | an accepted answer to an in-range question advances the index by exactly one, stores the field, and completes exactly at the last question |
| Interviewer.TurnKeepsAnswers | academic_research/sub_agents/interviewer/agent.py:97-125 | no turn removes a stored answer |
| Interviewer.RunKeepsAnswers | academic_research/sub_agents/interviewer/agent.py:97-125 | no sequence of turns removes a stored answer |
| Interviewer.InterviewCompletes | academic_research/sub_agents/interviewer/agent.py:104-111 | accepting every remaining answer completes the interview with the index at the number of questions |
| Interviewer.InterviewStoresAnswers | academic_research/sub_agents/interviewer/agent.py:97-111 | a completed run holds an answer under the field of every question it asked |
| Questionnaire.ValidatePositiveInt | aida/questionnaire.py:14-19 | an answer is valid exactly when `int()` of it succeeds and is positive: ints above 0, True, floats of at least 1, and strings that parse to a positive integer; every other value is invalid |
| Questionnaire.ValidateTimeline | aida/questionnaire.py:21-24 | every timeline is accepted |
| Questionnaire.Questions | aida/questionnaire.py:26-75 | nine questions starting with academic_program, each id equal to its field name; only weekly_hours has a clarification prompt, and only weekly_hours and total_timeline have validators |
| Questionnaire.QuestionsCoverUserProfile | aida/questionnaire.py:26-75 | the questions ask for exactly the fields of a user profile, in declaration order |
| PromptParts.JoinOr | aida/sub_agents/objectives/agent.py:57-61 | a list shows as its items joined by the separator, or as the placeholder when empty; every item appears in it |
| PromptParts.TimelineText | aida/sub_agents/problem_formulation/agent.py:67 | the timeline shows as the value, a space, and the unit |
| PromptParts.ProfileSlotsOf | aida/sub_agents/problem_formulation/agent.py:67-72 | the profile slots pass program, field and area through, show hours and timeline, join skills and constraints with ", ", and show "None specified" (or "None" in the quality-control prompt) for no existing skills and "None" for the other empty lists |
| PromptParts.ProfileListsMentioned | aida/sub_agents/problem_formulation/agent.py:70-72 | every skill and constraint of the profile appears in its slot |
| ProblemFormulationPrompt.RefinementPieces | aida/sub_agents/problem_formulation/agent.py:76-87 | the refinement block quotes, in order, the feedback, the statement, the main question, and the secondary questions and variables joined by ", " |
| ProblemFormulationPrompt.FormatPromptForUserProfile | aida/sub_agents/problem_formulation/agent.py:50-101 | the prompt fills the profile slots, shows a missing or empty additional context as "None", and has a refinement block exactly when a current definition and a non-empty feedback are both given |
| ProblemFormulationPrompt.RefinementBlockQuotes | aida/sub_agents/problem_formulation/agent.py:78-85 | the refinement block contains the feedback, the statement, the main question, and the joined secondary questions and variables |
| ProblemFormulationPrompt.RefinementOnlyWithFeedback | aida/sub_agents/problem_formulation/agent.py:75-88 | without non-empty feedback there is no refinement block even when a definition is passed |
| ObjectivesPrompt.FormatPromptForObjectives | aida/sub_agents/objectives/agent.py:39-76 | the prompt fills the profile slots, passes statement and main question verbatim, joins secondary questions by "; " and variables by ", " (each "None" when empty), and mentions every question and variable |
| MethodologyPrompt.ResearchTypeHint | aida/sub_agents/methodology/agent.py:65-70 | the hint is "Likely quantitative" exactly when the lower-cased question mentions a quantitative word, "Likely qualitative" exactly when it mentions no quantitative but some qualitative word, and undetermined otherwise |
| MethodologyPrompt.HowManyIsQuantitative | aida/sub_agents/methodology/agent.py:67-70 | a question with "how many" also mentions "how", yet it is called quantitative: the quantitative test comes first |
| MethodologyPrompt.FormatPromptForMethodology | aida/sub_agents/methodology/agent.py:40-86 | the prompt fills the profile slots, passes statement, question and general objective verbatim, carries the hint of the main question, and joins the specific objectives by "; " or shows "None" |
| DataCollectionPrompt.FormatPromptForDataCollection | aida/sub_agents/data_collection/agent.py:45-85 | the prompt fills the profile slots, joins specific objectives by "; " and methodology skills by ", " (each "None" when empty), and passes objective, methodology name and type verbatim |
| QualityControlPrompt.ShowGet | aida/sub_agents/quality_control/agent.py:87-91 | a dict lookup with a default shows the stored value, or the default when the key is absent |
| QualityControlPrompt.ToolLabel | aida/sub_agents/quality_control/agent.py:87 | a tool shows as "name (accessibility)" with "Unknown" and "unknown" for missing keys |
| QualityControlPrompt.ShownLabels | aida/sub_agents/quality_control/agent.py:86 | the summary covers the first three tools, in order |
| QualityControlPrompt.SummarizeTools | aida/sub_agents/quality_control/agent.py:85-88 | the tools loop yields the labels of at most the first three tools joined by ", ", or "None" when there are no tools |
| QualityControlPrompt.FormatPromptForQualityControl | aida/sub_agents/quality_control/agent.py:47-115 | the prompt fills the profile slots with "None" for every empty list, joins questions and objectives by "; " and the other lists by ", ", passes scalar fields verbatim, and shows the data-collection timeline's total_duration or "Not specified" |
| Validators.MakeReport | eval/test_multi_agent_pipeline.py:153-157 | a report is valid exactly when it has no issues, and carries the issues and warnings unchanged |
| Validators.MissingIssue | eval/test_multi_agent_pipeline.py:120 | a missing-field issue is the "Missing required field: " prefix followed by the field name |
| Validators.MissingIssuesEmpty | eval/test_multi_agent_pipeline.py:116-120 | no missing-field issue is raised exactly when every required field is present |
| Validators.MissingIssueIff | eval/test_multi_agent_pipeline.py:116-120 | the issue for a field is raised exactly when the field is required and absent |
| Validators.MissingIssueOnce | eval/test_multi_agent_pipeline.py:116-120 | with distinct required fields, an absent required field is reported exactly once |
| Validators.MissingIssuesAppend | eval/test_multi_agent_pipeline.py:118-120 | checking two lists of required fields reports the first list's issues, then the second's |
| Validators.CheckRequired | eval/test_multi_agent_pipeline.py:118-120 | the loop over the required fields collects exactly the missing-field issues, in order |
| Validators.PyLen | eval/test_multi_agent_pipeline.py:124 | `len` succeeds exactly on strings, lists and objects, with their length, and raises TypeError otherwise |
| Validators.SizeWarnings | eval/test_multi_agent_pipeline.py:147-151 | an absent field warns nothing; a field without a length raises; otherwise the low warning is given below the lower bound, the high one above the upper bound, and nothing in between |
| Validators.LiteratureCountWarnings | eval/test_multi_agent_pipeline.py:131-135 | no literature warns that the search may have failed; three or more entries warn nothing |
| Validators.LinkIssues | eval/test_multi_agent_pipeline.py:138-144 | an entry raises no issue exactly when its link, if any, names no placeholder and starts with HTTP:// or HTTPS:// in upper case; at most two issues per entry; an entry without a link is clean; a number or bool raises TypeError |
| Validators.LiteratureIssues | eval/test_multi_agent_pipeline.py:138-144 | the literature raises no link issue exactly when every entry is clean |
| Validators.CheckLiterature | eval/test_multi_agent_pipeline.py:138-144 | the loop over the entries computes the link issues, stopping at the first entry that raises |
| Validators.LiteratureFailureSticks | eval/test_multi_agent_pipeline.py:138-144 | once an entry raises, the later entries do not change the outcome |
| Validators.LiteratureChecks | eval/test_multi_agent_pipeline.py:130-144 | absent literature gives neither issues nor warnings; present literature gives the count warnings and the link issues |
| Validators.CheckLiteratureBlock | eval/test_multi_agent_pipeline.py:130-144 | the literature block computes the literature checks |
| Validators.ValidateProblemDefinition | eval/test_multi_agent_pipeline.py:110-157 | the problem-definition validator computes the problem-definition report |
| Validators.ProblemDefinitionValidity | eval/test_multi_agent_pipeline.py:110-157 | a problem definition is valid exactly when its five fields are present and every literature link is clean |
| Validators.ShortStatementWarns | eval/test_multi_agent_pipeline.py:123-125 | a problem statement under 50 characters is warned as too short |
| Validators.ValidateObjectives | eval/test_multi_agent_pipeline.py:160-182 | the objectives validator computes the objectives report |
| Validators.ObjectivesValidity | eval/test_multi_agent_pipeline.py:160-182 | validating objectives raises exactly when the specific objectives have no length; otherwise they are valid exactly when the three fields are present |
| Validators.MethodologyTypeWarnings | eval/test_multi_agent_pipeline.py:197-201 | an absent type warns nothing; a non-string type raises; a string type warns exactly when its lower-case form is not one of the three known types |
| Validators.ValidateMethodology | eval/test_multi_agent_pipeline.py:185-207 | the methodology validator computes the methodology report |
| Validators.MethodologyValidity | eval/test_multi_agent_pipeline.py:185-207 | a methodology is valid exactly when its four fields are present, and warns nothing exactly when its type is absent or known |
| Validators.MixedMethodsAnyCase | eval/test_multi_agent_pipeline.py:199-200 | the type is compared case-insensitively: "Mixed-Methods" warns nothing |
| Validators.ToolsWarnings | eval/test_multi_agent_pipeline.py:223-225 | absent tools warn nothing; tools without a length raise; an empty tool list, and only that, warns "No tools recommended" |
| Validators.SampleWarnings | eval/test_multi_agent_pipeline.py:227-234 | at most one warning, given exactly when the sample size is present, parses as an int and is below 10, and it shows the parsed size |
| Validators.ValidateDataCollection | eval/test_multi_agent_pipeline.py:210-240 | the data-collection validator computes the data-collection report |
| Validators.DataCollectionValidity | eval/test_multi_agent_pipeline.py:210-240 | a data-collection plan is valid exactly when its four fields are present |
| Validators.UnparsableSampleIgnored | eval/test_multi_agent_pipeline.py:229-234 | a sample size that does not parse as an int adds no warning of its own: only the tools warning can remain |
| Validators.SampleInWordsUnparsable | eval/test_multi_agent_pipeline.py:230 | a sample size written in words, starting with a letter, does not parse as an int |
| Validators.ScoreIssues | eval/test_multi_agent_pipeline.py:255-277 | a score raises at most one issue, and none exactly when it is absent or a number within [0, high] |
| Validators.QualityReport | eval/test_multi_agent_pipeline.py:243-283 | quality validation never warns |
| Validators.ValidateQualityControl | eval/test_multi_agent_pipeline.py:243-283 | the quality-control validator computes the quality report |
| Validators.QualityValidity | eval/test_multi_agent_pipeline.py:243-283 | a quality validation is valid exactly when its seven fields are present, coherence and feasibility lie in [0, 1] and the overall score in [0, 100] |
| Validators.DropOpening | eval/test_multi_agent_pipeline.py:297-300 | a leading "```json" fence loses its seven characters, text without a "```" fence is unchanged |
| Validators.DropClosing | eval/test_multi_agent_pipeline.py:301-302 | a trailing "```" is cut off, other text is unchanged |
| Validators.CleanJsonResponse | eval/test_multi_agent_pipeline.py:294-303 | the cleaned text is stripped and never longer than the input |
| Validators.CleanJsonFenced | eval/test_multi_agent_pipeline.py:294-303 | a stripped body inside a "```json" fence, with any surrounding whitespace, cleans back to the body |
| Validators.CleanBareFenced | eval/test_multi_agent_pipeline.py:294-303 | a stripped body inside a bare "```" fence, not starting with 'j', cleans back to the body |
| Validators.CleanUnfenced | eval/test_multi_agent_pipeline.py:294-303 | text with no fence at either end is only stripped |
| Validators.PassedCount | eval/test_multi_agent_pipeline.py:569 | the passed count is at most the number of validations, equals it exactly when all pass, and is zero exactly when none passes |
| Validators.Bullets | eval/test_multi_agent_pipeline.py:582-588 | each item becomes one bullet line, in order |
| Validators.SectionListsEverything | eval/test_multi_agent_pipeline.py:576-589 | an agent's section shows its heading, PASSED or FAILED by validity, every issue when it failed, and every warning |
| Validators.ErrorLines | eval/test_multi_agent_pipeline.py:592-595 | the error block is empty exactly when there are no errors, and shows every error |
| Validators.HeaderLines | eval/test_multi_agent_pipeline.py:561-573 | the report opens with seven header and summary lines |
| Validators.CountPassed | eval/test_multi_agent_pipeline.py:569 | the counting loop computes the passed count |
| Validators.AppendBullets | eval/test_multi_agent_pipeline.py:582-588 | the loop appends exactly the bullet lines of the items |
| Validators.AppendSection | eval/test_multi_agent_pipeline.py:577-589 | the lines of one agent's section are appended in order |
| Validators.AppendErrors | eval/test_multi_agent_pipeline.py:592-595 | the loop appends exactly the error block |
| Validators.AppendSections | eval/test_multi_agent_pipeline.py:576-589 | the loop appends every agent's section in order |
| Validators.GenerateReport | eval/test_multi_agent_pipeline.py:559-597 | the report text is the report lines joined by newlines |
| Validators.SectionsListEverything | eval/test_multi_agent_pipeline.py:576-589 | every agent's heading appears among the section lines, and a failed agent's FAILED line and issues too |
| Validators.ReportContents | eval/test_multi_agent_pipeline.py:559-597 | the summary line counts the passed validations out of all; every agent's heading, every failed agent's issues, every error, and the ERRORS header when there are errors appear in the report |
| SearchWrapper.SiteClauses | academic_research/tools/search_wrapper.py:83 | each source becomes its own "site:" clause, in order |
| SearchWrapper.SourceClause | academic_research/tools/search_wrapper.py:83-84 | the source clause names each of the first five academic sources |
| SearchWrapper.FirstKeywords | academic_research/tools/search_wrapper.py:75 | at most the first three keywords are kept, as a prefix of the list |
| SearchWrapper.QueryParts | academic_research/tools/search_wrapper.py:65-84 | the query has the quoted area, the field and the qualifiers first, a keyword part exactly when keywords are given, an "after:" part naming the year before exactly when a non-zero year is given, and the source clause last |
| SearchWrapper.QueryShape | academic_research/tools/search_wrapper.py:65-86 | the query starts with the quoted research area, ends with the source clause and contains every part |
| SearchWrapper.KeywordsLimited | academic_research/tools/search_wrapper.py:74-76 | each of the first three keywords appears in the query |
| SearchWrapper.CapturesAreCenturies | academic_research/tools/search_wrapper.py:134 | every capture of the year pattern is the group "19" or "20", not the whole year |
| SearchWrapper.ParsedYears | academic_research/tools/search_wrapper.py:138 | one parsed value per capture |
| SearchWrapper.PlausibleBounds | academic_research/tools/search_wrapper.py:139 | every kept year lies between 1990 and the current year |
| SearchWrapper.MaxIsUpperBound | academic_research/tools/search_wrapper.py:141 | the maximum is at least every element |
| SearchWrapper.MaxWithin | academic_research/tools/search_wrapper.py:141 | the maximum of values within bounds is within the bounds |
| SearchWrapper.LatestIsPlausible | academic_research/tools/search_wrapper.py:136-143 | a year is returned exactly when some year is plausible, and it is plausible and no earlier than any plausible year |
| SearchWrapper.ExtractYearPlausible | academic_research/tools/search_wrapper.py:130-143 | an extracted year lies between 1990 and the current year |
| SearchWrapper.CenturyValue | academic_research/tools/search_wrapper.py:138 | the captures "19" and "20" parse to numbers below 1990 |
| SearchWrapper.CenturiesOnly | academic_research/tools/search_wrapper.py:138 | a list of century captures parses to values all below 1990 |
| SearchWrapper.NoPlausible | academic_research/tools/search_wrapper.py:139-141 | when every year is below 1990 no year is kept |
| SearchWrapper.ExtractYearAlwaysNone | academic_research/tools/search_wrapper.py:130-143 | as written, year extraction returns None for every snippet and URL |
| SearchWrapper.UpToSlash | academic_research/tools/search_wrapper.py:152 | the host part is the longest slash-free prefix |
| SearchWrapper.HostMatch | academic_research/tools/search_wrapper.py:152 | a match at a position needs an http:// or https:// scheme there and yields a non-empty slash-free host |
| SearchWrapper.ExtractSource | academic_research/tools/search_wrapper.py:145-165 | an empty URL has no source; a source, when found, is non-empty and slash-free |
| SearchWrapper.NoSchemeNoSource | academic_research/tools/search_wrapper.py:152-153 | a URL with no http:// or https:// anywhere has no source |
| SearchWrapper.SourceOfPlainUrl | academic_research/tools/search_wrapper.py:145-161 | for scheme, optional "www.", host and path the source is the host, known academic source or not |
| SearchWrapper.SchemeSkipped | academic_research/tools/search_wrapper.py:152 | after the scheme, the host is read from the rest |
| SearchWrapper.ParseEach | academic_research/tools/search_wrapper.py:103-126 | one parsed result per raw result |
| SearchWrapper.ParsedEntry | academic_research/tools/search_wrapper.py:103-126 | the i-th parsed result is the parse of the i-th raw result |
| SearchWrapper.ParseSearchResults | academic_research/tools/search_wrapper.py:88-128 | the loop parses every raw result, in order |
| SearchWrapper.ParsedUnscoredUndated | academic_research/tools/search_wrapper.py:110-123 | a freshly parsed result has score 0.0 and, given the year extraction as written, no year |
| SearchWrapper.AtLeast | academic_research/tools/search_wrapper.py:259 | every kept result reaches the minimum score |
| SearchWrapper.AtLeastKeeps | academic_research/tools/search_wrapper.py:259 | the filter keeps a sub-multiset of the results and every result reaching the minimum |
| SearchWrapper.InsertPermutes | academic_research/tools/search_wrapper.py:262 | inserting adds exactly the one element |
| SearchWrapper.InsertSorted | academic_research/tools/search_wrapper.py:262 | inserting into a list sorted by descending score keeps it sorted |
| SearchWrapper.RankByScore | academic_research/tools/search_wrapper.py:262 | ranking keeps the length |
| SearchWrapper.RankSorted | academic_research/tools/search_wrapper.py:262 | the ranked list is sorted by descending score |
| SearchWrapper.RankPermutes | academic_research/tools/search_wrapper.py:262 | the ranked list is a permutation of its input |
| SearchWrapper.InsertStable | academic_research/tools/search_wrapper.py:262 | inserting after the equal-score elements keeps their order |
| SearchWrapper.RankStable | academic_research/tools/search_wrapper.py:262 | ranking is stable: results with equal score keep their input order |
| SearchWrapper.PyPrefix | academic_research/tools/search_wrapper.py:265 | slicing with `[:n]` keeps a prefix of length min(n, len) for non-negative n and len + n, floored at 0, for negative n |
| SearchWrapper.Rescored | academic_research/tools/search_wrapper.py:251-256 | each result keeps everything but its score, which becomes its relevance score |
| SearchWrapper.FilterAndRankResults | academic_research/tools/search_wrapper.py:229-265 | the method rescores every result, then returns the top-n prefix of the stable descending ranking of those reaching the minimum |
| SearchWrapper.RankedResults | academic_research/tools/search_wrapper.py:250-265 | the returned results are sorted by descending score, all reach the minimum, all come from the rescored input, and there are at most n of them |
| SearchWrapper.SnippetPreview | academic_research/tools/search_wrapper.py:292 | a snippet of at most 100 characters is kept, a longer one is cut to 100 and gets "..." |
| SearchWrapper.RelevanceParts | academic_research/tools/search_wrapper.py:284-293 | the relevance parts are at most three and always end with the snippet preview |
| SearchWrapper.LiteratureItemOf | academic_research/tools/search_wrapper.py:297-301 | the literature item keeps the result's title and URL |
| SearchWrapper.RelevanceEndsWithSnippet | academic_research/tools/search_wrapper.py:284-295 | the relevance note is the parts joined by ". " and ends with the snippet preview |
| SearchWrapper.FormatResult | academic_research/tools/search_wrapper.py:283-301 | one result is formatted as its literature item |
| SearchWrapper.FormatForLiterature | academic_research/tools/search_wrapper.py:267-303 | the loop formats every result, in order, one item each |
| ProposalBuilder.ProposalKeysDistinct | academic_research/proposal_builder.py:32-39 | the assembled proposal binds six distinct keys |
| ProposalBuilder.ProposalShape | academic_research/proposal_builder.py:32-39 | the proposal's keys are the six section keys in order, each bound to its component |
| ProposalBuilder.AssembledProposal | academic_research/proposal_builder.py:10-39 | every section key is bound to the model dump of its record, or None when the record is missing |
| ProposalBuilder.Gettable | academic_research/proposal_builder.py:58-61 | `.get` works on a dict and raises AttributeError on any other section value |
| ProposalBuilder.Bullets | academic_research/proposal_builder.py:67-68 | each item becomes one "- " line, in order |
| ProposalBuilder.ListBlock | academic_research/proposal_builder.py:64-69 | an empty list adds nothing, a non-empty list adds its heading, its bullets and a blank line, and an iteration error fails the rendering |
| ProposalBuilder.IntroductionLines | academic_research/proposal_builder.py:58-69 | the introduction always opens with its header |
| ProposalBuilder.ObjectivesLines | academic_research/proposal_builder.py:72-82 | the objectives section always opens with its header |
| ProposalBuilder.MethodologyLines | academic_research/proposal_builder.py:85-89 | the methodology section always opens with its header |
| ProposalBuilder.DataCollectionLines | academic_research/proposal_builder.py:92-109 | the data-collection section always opens with its header |
| ProposalBuilder.IssueLine | academic_research/proposal_builder.py:122 | an issue line starts with "- [" |
| ProposalBuilder.IssueLines | academic_research/proposal_builder.py:121-122 | one line per issue |
| ProposalBuilder.QualityLines | academic_research/proposal_builder.py:112-122 | no quality validation adds nothing; otherwise the section opens with the "## 5. Quality Assessment" header |
| ProposalBuilder.AppendBullets | academic_research/proposal_builder.py:67-68 | the loop appends exactly the bullet lines |
| ProposalBuilder.AppendListBlock | academic_research/proposal_builder.py:64-69 | the list block is appended, or its failure is passed on |
| ProposalBuilder.AppendIntroduction | academic_research/proposal_builder.py:58-69 | the introduction lines are appended, or its failure is passed on |
| ProposalBuilder.AppendObjectives | academic_research/proposal_builder.py:72-82 | the objectives lines are appended, or its failure is passed on |
| ProposalBuilder.AppendMethodology | academic_research/proposal_builder.py:85-89 | the methodology lines are appended, or its failure is passed on |
| ProposalBuilder.AppendDataCollection | academic_research/proposal_builder.py:92-109 | the data-collection lines are appended, or its failure is passed on |
| ProposalBuilder.IssueFailureSticks | academic_research/proposal_builder.py:121-122 | once an issue fails to render, the later issues do not change the outcome |
| ProposalBuilder.AppendIssues | academic_research/proposal_builder.py:121-122 | the loop appends one line per issue, or stops at the first failure |
| ProposalBuilder.AppendQuality | academic_research/proposal_builder.py:112-122 | the quality lines are appended, or its failure is passed on |
| ProposalBuilder.ToMarkdown | academic_research/proposal_builder.py:41-124 | the method renders exactly the Markdown draft |
| ProposalBuilder.MarkdownOfSections | academic_research/proposal_builder.py:52-124 | the draft's lines are the title, then the five sections in order |
| ProposalBuilder.EmptyProposalDraft | academic_research/proposal_builder.py:55-93 | an empty proposal renders the title and the four section headers only |
| ProposalBuilder.SectionsInOrder | academic_research/proposal_builder.py:55-93 | a rendered draft opens with the title and the introduction header, and headers 2 to 4 follow in order |
| ProposalBuilder.QualitySectionIff | academic_research/proposal_builder.py:112-114 | the quality header appears exactly when the quality validation is truthy |
| ProposalBuilder.IntroductionFollowsTitle | academic_research/proposal_builder.py:55-69 | the introduction's lines come right after the title |
| ProposalBuilder.IntroductionOfDict | academic_research/proposal_builder.py:60-69 | a non-empty problem dict shows its statement and main question, "N/A" when missing, then the secondary-question block |
| ProposalBuilder.IntroductionListsQuestions | academic_research/proposal_builder.py:64-69 | the secondary questions are listed one bullet each, in order, after their heading |
| ProposalBuilder.SecondaryQuestionsListed | academic_research/proposal_builder.py:64-68 | in the whole draft, the k-th secondary question is the bullet on line 5 + k |
| ProposalBuilder.IntroductionLine | academic_research/proposal_builder.py:59-68 | line positions of the secondary-question heading and bullets in the whole draft |
| ProposalBuilder.MissingStatementReadsNA | academic_research/proposal_builder.py:61 | a missing problem statement renders as "N/A" |
| ProposalBuilder.NonDictSectionFails | academic_research/proposal_builder.py:58-61 | a truthy problem section that is not a dict fails with AttributeError |
| ProposalBuilder.DictIssuesRender | academic_research/proposal_builder.py:121-122 | issues that are dicts always render |
| ProposalBuilder.DumpsRender | academic_research/proposal_builder.py:33-38 | the model dump of every record, or None, renders |
| ProposalBuilder.ProposalRenders | academic_research/proposal_builder.py:32-124 | a proposal whose sections each render renders as a whole |
| ProposalBuilder.AssembledProposalRenders | academic_research/proposal_builder.py:10-124 | every assembled proposal renders without error |
| CitationFormatter.ApaParts | academic_research/tools/citation_formatter.py:31-57 | an APA citation has three to five parts |
| CitationFormatter.ApaShape | academic_research/tools/citation_formatter.py:31-59 | APA starts with the authors or "Author unknown.", shows "(n.d.)." without a year, contains the title, and ends with the link when a URL is given |
| CitationFormatter.ApaDoiCanonical | academic_research/tools/citation_formatter.py:53-55 | a DOI URL is cited as https://doi.org/ followed by what comes after its last "doi.org/" |
| CitationFormatter.ApaPlainLink | academic_research/tools/citation_formatter.py:56-57 | a URL that is not a DOI is cited as "Retrieved from" the URL |
| CitationFormatter.AfterDoiPrefix | academic_research/tools/citation_formatter.py:55 | splitting on "doi.org/" and taking the last piece yields the identifier after the prefix |
| CitationFormatter.IeeeParts | academic_research/tools/citation_formatter.py:82-102 | an IEEE citation has one to five parts |
| CitationFormatter.IeeeShape | academic_research/tools/citation_formatter.py:82-104 | IEEE quotes the title, starts with the authors when given, ends with "[Online]. Available:" and the URL when given, and is only the quoted title when nothing else is given |
| CitationFormatter.ChicagoParts | academic_research/tools/citation_formatter.py:127-146 | a Chicago citation has one to five parts |
| CitationFormatter.ChicagoShape | academic_research/tools/citation_formatter.py:127-148 | Chicago quotes the title, ends with the URL and a period when given, and is only the quoted title when nothing else is given |
| CitationFormatter.HarvardParts | academic_research/tools/citation_formatter.py:171-196 | a Harvard citation has three to six parts |
| CitationFormatter.HarvardShape | academic_research/tools/citation_formatter.py:171-198 | Harvard starts with the authors or "Author unknown", contains the title, and with a URL shows "Available at:" and ends with the access date; without one it ends with the source or the title |
| CitationFormatter.StyleCaseInsensitive | academic_research/tools/citation_formatter.py:223 | the style name is matched case-insensitively |
| CitationFormatter.CitationNamesTitle | academic_research/tools/citation_formatter.py:201-240 | every style's citation contains the title |
| CitationFormatter.UnknownStyleIsApa | academic_research/tools/citation_formatter.py:225-232 | an unknown style falls back to APA |
| AgentRegistryModel.MetadataOr | academic_research/agent_registry.py:31 | missing metadata is stored as an empty dict, given metadata unchanged |
| AgentRegistryModel.InsertedKeys | academic_research/agent_registry.py:30 | a dict insertion keeps the keys distinct, adds exactly the new name, keeps the order of a re-registered name and appends a new one at the end |
| AgentRegistryModel.WithoutKeys | academic_research/agent_registry.py:74-76 | a deletion keeps the keys distinct and removes exactly the name |
| AgentRegistryModel.WithoutAbsent | academic_research/agent_registry.py:74 | removing an absent name leaves the key order unchanged |
| AgentRegistryModel.RegisterThenUnregister | academic_research/agent_registry.py:18-77 | registering a new name and then unregistering it restores the key order |
| AgentRegistryModel.AgentRegistry.constructor | academic_research/agent_registry.py:14-16 | a new registry is empty |
| AgentRegistryModel.AgentRegistry.RegisterAgent | academic_research/agent_registry.py:18-32 | registration binds the agent and its metadata under the name, overwriting an earlier binding, and keeps the listing consistent |
| AgentRegistryModel.AgentRegistry.GetAgent | academic_research/agent_registry.py:34-44 | the lookup returns the registered agent, or None for an unknown name |
| AgentRegistryModel.AgentRegistry.GetMetadata | academic_research/agent_registry.py:46-56 | the lookup returns the registered metadata, or None for an unknown name |
| AgentRegistryModel.AgentRegistry.ListAgents | academic_research/agent_registry.py:58-65 | the listing names every registered agent exactly once, in registration order |
| AgentRegistryModel.AgentRegistry.UnregisterAgent | academic_research/agent_registry.py:67-77 | unregistering removes the agent and its metadata, and an unknown name changes nothing |
| Communication.MessageTypeValuesDistinct | academic_research/communication.py:15-20 | the four message types have distinct values |
| Communication.NewMessage | academic_research/communication.py:23-32 | a new message has the given fields, no correlation id and empty metadata |
| Communication.MessageDumpReadsBack | academic_research/communication.py:23-32 | a message's dump reads back its sender, receiver, type value, content and correlation id |
| Communication.SubscribeAppends | academic_research/communication.py:42-52 | subscribing appends the handler to its topic's list, leaves the other topics alone, and never drops a handler |
| Communication.FailingExactly | academic_research/communication.py:66-70 | the handlers reported as failing are exactly the called handlers that raise |
| Communication.NoneRaiseNoneFail | academic_research/communication.py:66-70 | when no handler raises, no failure is reported |
| Communication.MessageBus.constructor | academic_research/communication.py:38-40 | a new bus has no subscribers and no history |
| Communication.MessageBus.Subscribe | academic_research/communication.py:42-53 | subscribing appends the handler to the topic and leaves the history alone |
| Communication.MessageBus.Publish | academic_research/communication.py:55-73 | publishing appends the message to the history whatever the subscribers do, calls exactly the topic's handlers in order, and reports exactly those that raise |
| Communication.MessageBus.GetHistory | academic_research/communication.py:75-77 | the history is returned as recorded |
| MessageRouting.AgentTopic | academic_research/message_router.py:86 | a request is published on "agent." followed by the receiver's name |
| MessageRouting.AgentTopicIsNotRouter | academic_research/message_router.py:52 | no agent topic is the router's own topic, so the router's handler never sees a routed request |
| MessageRouting.Logged | academic_research/message_router.py:28-39 | a writable log gets one dump per message; a failing one gets nothing |
| MessageRouting.MessageLogger.constructor | academic_research/message_router.py:20-26 | a new log is empty |
| MessageRouting.MessageLogger.Log | academic_research/message_router.py:28-39 | logging appends the message's dump when the log file can be written, and nothing otherwise |
| MessageRouting.RequestMessage | academic_research/message_router.py:77-82 | a routed request has type request and no correlation id |
| MessageRouting.NotFound | academic_research/message_router.py:96-102 | the not-found reply comes from the router, goes back to the sender, has type error, correlates with the request and names the missing agent |
| MessageRouting.NotFoundAnswersRequest | academic_research/message_router.py:77-104 | the not-found reply to a request answers its sender, carries its id, differs in type and names the receiver in its error |
| MessageRouting.RequestLogReadsBack | academic_research/message_router.py:85 | the logged request reads back its sender, receiver, content and "request" type |
| MessageRouting.MessageRouter.constructor | academic_research/message_router.py:45-52 | a new router keeps its registry and bus, opens an empty log and subscribes its handler to "router" without touching the history |
| MessageRouting.MessageRouter.HandleMessage | academic_research/message_router.py:54-62 | a handled message is logged |
| MessageRouting.MessageRouter.RouteRequest | academic_research/message_router.py:64-112 | the request is logged and published on the receiver's topic; a registered truthy agent gets the request back as acknowledgement, otherwise the not-found reply is logged and returned |

## Left out

- Google ADK and model plumbing are not part of this model: runner sessions, event streams, session-history lookup, `asyncio.sleep`, `gc.collect` and the Gemini client in the interviewer. Each agent is a parameter that maps its prompt to the events and history of one run, and the interviewer's reply is an input.
- `json.loads` and the `re` engine are parameters of the JSON extractor. The JSON text format and regex semantics belong to those libraries.
- AgentOutput.Answer: the second empty-text check, after the session closes, is not modelled as a separate failure. The reduction already fails on an empty answer, so that check can never fire.
- `score_relevance` is the parameter `scoreOf`. Its floating-point weighting is arithmetic on floats, and the ranking only needs an ordered score.
- The clock and random ids are parameters: `datetime.now()`, `uuid4()`, `generated_at`, the Harvard access date and the year read by the search wrapper.
- MessageRouting.MessageLogger.Log: the log file's name, directory and JSON text encoding are not modelled. The log is the sequence of dumped messages, and whether a write succeeds is a property of the logger.
- MessageRouting.MessageRouter.RouteRequest: the coroutine is a plain method, since it has no `await`. The truthiness of a registered agent instance is a parameter.
- Communication.MessageBus.Publish: the bus does not run handler bodies. Which handlers raise is a parameter, and the method reports the handlers it called and the ones whose exception it caught.
- Logging calls and `progress_callback` are telemetry and are not part of this model.
- Python's `str.lower`/`str.upper` act on ASCII letters only here. Unicode case mapping is a property of the runtime tables.
- JsonData.Repr: `repr` of a string is simplified to the text in single quotes. Python switches to double quotes and escapes special characters. A float carries its printed form as given, because float formatting is runtime behaviour.
- An f-string of a workflow state shows "WorkflowState.X", the str-mixin enum format of recent Python versions.
- SearchWrapper.FilterAndRankResults: the source overwrites the score on the caller's result objects. The model returns the rescored copies, so it does not capture aliasing between the input list and the ranked output.
- SearchWrapper.ExtractYear: modelled as written. With the capture group in its pattern, `findall` returns only "19" or "20", so no year is ever extracted. ExtractYearAlwaysNone states this, and LatestIsPlausible states what the intended maximum would satisfy.
- SearchWrapper.ParseSearchResults: raw hit values are strings. A non-string title, link or snippet is not modelled.
- CitationFormatter.AfterDoiPrefix: proved for a DOI prefix whose leading part holds no 'd'. Other URLs with "doi.org" are formatted by the same function, but this lemma does not state their result.
- The configuration module (`aida/config.py`) is not part of this model. The refinement budget is a constructor parameter of the orchestrator.
- `aida/data_models.py` is not part of this model. The stage records are those of `academic_research/data_models.py`.
- Not part of this model:
  - `ProposalBuilder.to_json`, which is `json.dumps`;
  - state persistence, PDF generation and the Streamlit app;
  - the demos, and the evaluation driver (`run_full_pipeline`, `main`, `load_test_case`);
  - prompt template text, and package `__init__` files.
- The agent factory functions and legacy agent wrapper classes are not part of this model. They only configure foreign classes.
- DataModels.AsInt: strings are read with ASCII digits, single digit-group underscores ("1_000") and whitespace only. Non-ASCII digits and the 4300-digit limit on integer parsing are not modelled.
- DataModels.AsFloat: a string is accepted only as a plain decimal literal of at most 15 significant digits whose value is zero or of magnitude at least 0.0001. Exponent forms, "inf" and "nan", underscores, and literals whose binary value or printed form needs rounding or an exponent are accepted by Python but rejected here, because binary floating point is not modelled. A JSON integer is converted exactly and its text is printed as the digits and ".0" at any size (`IntToFloat`), whereas Python rounds beyond 2**53 and prints an exponent from 10**16 on.
- DataModels.AsBool: a string is compared with the words as given. Stripping surrounding whitespace before the comparison is not modelled.
- DataModels.IntFloatTextAgree: stated for non-zero integers of at most 15 digits. Zero is stated separately by ZeroLiteralFloat, and longer integers fall outside AsFloat's accepted literals.
- Questionnaire.ValidatePositiveInt: JSON floats are real numbers here, so the non-finite values `Infinity`, `-Infinity` and `NaN`, which `json.loads` accepts, cannot be represented. On these the source's `int(value)` raises `OverflowError` or `ValueError`; the `OverflowError` escapes the handler, and that path is not modelled.
- Validators.SampleWarnings: the sample size is a finite JSON value here. `json.loads` also accepts `Infinity`, `-Infinity` and `NaN`; on an infinite size the source's `int(...)` raises `OverflowError`, which its `except (ValueError, TypeError)` does not catch, and that path is not modelled.
- Validators.ValidateDataCollection: for the same reason, the model always returns a report, whereas the source raises `OverflowError` when `estimated_sample_size` is `Infinity` or `-Infinity`.
- Validators.ScoreIssues: scores are finite here. A `NaN` score, which `json.loads` accepts, gives no issue in the source because both `score < 0` and `score > high` are false; the model cannot represent it.
- Validators.QualityValidity: the iff covers finite scores only. In the source a validation whose scores are `NaN` also passes, and the model does not state that case.
- Errors.Message: the text of a pydantic validation error is simplified to one error naming the model, the first failing field and a reason. Pydantic's error count, the list of every failing field, the `[type=..., input_value=..., input_type=...]` suffix and the documentation link are not modelled, so `error_message` (aida/orchestrator.py:559) holds that simplified text.

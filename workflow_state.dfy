/**
 * The workflow state machine of the proposal pipeline: ten states, the fixed
 * table of legal moves, and the context object that records every move.
 */
module WorkflowState {
  import opened Wrappers
  import opened JsonData

  datatype State =
    | Init
    | Interviewing
    | ProblemFormulation
    | Objectives
    | Methodology
    | DataCollection
    | QualityControl
    | Refinement
    | Complete
    | Error

  /** The enum's string value. */
  function Value(s: State): string {
    match s
    case Init => "init"
    case Interviewing => "interviewing"
    case ProblemFormulation => "problem_formulation"
    case Objectives => "objectives"
    case Methodology => "methodology"
    case DataCollection => "data_collection"
    case QualityControl => "quality_control"
    case Refinement => "refinement"
    case Complete => "complete"
    case Error => "error"
  }

  lemma ValueInjective(s: State, t: State)
    requires Value(s) == Value(t)
    ensures s == t
  {
  }

  /** One recorded move: where from, where to, when, and the caller's metadata. */
  datatype StateTransition = StateTransition(fromState: State, toState: State, timestamp: string, metadata: Fields)

  /** The table of legal successors of each state. */
  function ValidTransitions(s: State): seq<State> {
    match s
    case Init => [Interviewing, Error]
    case Interviewing => [ProblemFormulation, Error]
    case ProblemFormulation => [Objectives, Error]
    case Objectives => [Methodology, Error]
    case Methodology => [DataCollection, Error]
    case DataCollection => [QualityControl, Error]
    case QualityControl => [Complete, Refinement, Error]
    case Refinement => [ProblemFormulation, Error]
    case Complete => []
    case Error => []
  }

  predicate IsValidTransition(from: State, to: State) {
    to in ValidTransitions(from)
  }

  predicate IsTerminal(s: State) {
    s == Complete || s == Error
  }

  /** Complete and Error have no way out; every other state may fail into Error. */
  lemma TerminalStates(s: State)
    ensures IsTerminal(s) <==> (forall t :: !IsValidTransition(s, t))
    ensures !IsTerminal(s) ==> IsValidTransition(s, Error)
  {
    if !IsTerminal(s) {
      assert IsValidTransition(s, Error);
    }
  }

  /** Only quality control branches: to Complete or to Refinement. */
  lemma OnlyQualityControlBranches(s: State, t1: State, t2: State)
    requires IsValidTransition(s, t1) && IsValidTransition(s, t2)
    requires t1 != Error && t2 != Error && t1 != t2
    ensures s == QualityControl && {t1, t2} == {Complete, Refinement}
  {
  }

  /** A position along the pipeline; every legal move except QualityControl -> Refinement climbs. */
  function Rank(s: State): (r: nat)
    ensures r <= 9
  {
    match s
    case Init => 0
    case Interviewing => 1
    case Refinement => 2
    case ProblemFormulation => 3
    case Objectives => 4
    case Methodology => 5
    case DataCollection => 6
    case QualityControl => 7
    case Complete => 8
    case Error => 9
  }

  lemma RankClimbs(s: State, t: State)
    requires IsValidTransition(s, t)
    ensures (s == QualityControl && t == Refinement) || Rank(s) < Rank(t)
  {
  }

  /** A sequence of states in which each consecutive pair is a legal move. */
  predicate IsPath(p: seq<State>) {
    forall i :: 0 <= i < |p| - 1 ==> IsValidTransition(p[i], p[i + 1])
  }

  predicate UsesRefinementEdge(p: seq<State>) {
    exists i :: 0 <= i < |p| - 1 && p[i] == QualityControl && p[i + 1] == Refinement
  }

  lemma {:induction false} PathWithoutRefinementClimbs(p: seq<State>)
    requires |p| >= 1 && IsPath(p) && !UsesRefinementEdge(p)
    ensures Rank(p[0]) + |p| - 1 <= Rank(p[|p| - 1])
  {
    if |p| > 1 {
      var q := p[..|p| - 1];
      assert IsPath(q);
      assert forall i :: 0 <= i < |q| ==> q[i] == p[i];
      PathWithoutRefinementClimbs(q);
      RankClimbs(p[|p| - 2], p[|p| - 1]);
    }
  }

  /** Every cycle in the table goes through the refinement edge. */
  lemma CycleUsesRefinement(p: seq<State>)
    requires |p| >= 2 && IsPath(p) && p[0] == p[|p| - 1]
    ensures UsesRefinementEdge(p)
  {
    if !UsesRefinementEdge(p) {
      PathWithoutRefinementClimbs(p);
    }
  }

  /** The six states of the refinement cycle. */
  predicate OnRefinementCycle(s: State) {
    s in {ProblemFormulation, Objectives, Methodology, DataCollection, QualityControl, Refinement}
  }

  /** Init and Interviewing are entered only at the start of a path. */
  lemma {:induction false} NoReturnToStart(p: seq<State>, i: nat)
    requires IsPath(p) && 0 < i < |p|
    ensures p[i] != Init
    ensures p[i] == Interviewing ==> p[i - 1] == Init && i == 1
  {
    assert IsValidTransition(p[i - 1], p[i]);
    if p[i] == Interviewing && i > 1 {
      NoReturnToStart(p, i - 1);
    }
  }

  /** The only cycle is QualityControl -> Refinement -> ProblemFormulation -> ... -> QualityControl. */
  lemma CycleStaysOnRefinementLoop(p: seq<State>, i: nat)
    requires |p| >= 2 && IsPath(p) && p[0] == p[|p| - 1] && i < |p|
    ensures OnRefinementCycle(p[i])
  {
    var last := |p| - 1;
    forall j | 0 <= j < last
      ensures !IsTerminal(p[j])
    {
      assert IsValidTransition(p[j], p[j + 1]);
    }
    NoReturnToStart(p, last);
    if i > 0 {
      NoReturnToStart(p, i);
    }
    if i == last {
      assert !IsTerminal(p[0]);
    }
  }

  /** Percentage shown for each state. */
  function ProgressPercentage(s: State): (r: nat)
    ensures r <= 100
    ensures r == 100 <==> s == Complete
    ensures r == 0 <==> s == Init || s == Error
  {
    match s
    case Init => 0
    case Interviewing => 10
    case ProblemFormulation => 25
    case Objectives => 40
    case Methodology => 55
    case DataCollection => 70
    case QualityControl => 85
    case Refinement => 90
    case Complete => 100
    case Error => 0
  }

  /** Progress grows along every legal move, except failing and restarting a refinement pass. */
  lemma ProgressGrows(s: State, t: State)
    requires IsValidTransition(s, t) && t != Error && s != Refinement
    ensures ProgressPercentage(s) < ProgressPercentage(t)
  {
  }

  /** A human-readable name for each state. */
  function StepName(s: State): (r: string)
    ensures r != []
  {
    match s
    case Init => "Initializing"
    case Interviewing => "Conducting Interview"
    case ProblemFormulation => "Formulating Research Problem"
    case Objectives => "Defining Research Objectives"
    case Methodology => "Selecting Methodology"
    case DataCollection => "Planning Data Collection"
    case QualityControl => "Validating Proposal Quality"
    case Refinement => "Refining Proposal"
    case Complete => "Proposal Complete"
    case Error => "Error Occurred"
  }

  lemma StepNamesDistinct(s: State, t: State)
    requires StepName(s) == StepName(t)
    ensures s == t
  {
  }

  /** The name of `t` is the name of no other state. */
  lemma StepNameNamesOneState(t: State)
    ensures forall s: State :: StepName(s) == StepName(t) ==> s == t
  {
    forall s: State | StepName(s) == StepName(t)
      ensures s == t
    {
      StepNamesDistinct(s, t);
    }
  }

  /** Number of moves into Refinement in a history. */
  function RefinementsIn(h: seq<StateTransition>): (r: nat)
    ensures r <= |h|
  {
    if h == [] then 0
    else RefinementsIn(h[..|h| - 1]) + (if h[|h| - 1].toState == Refinement then 1 else 0)
  }

  /** Each record starts where the previous one ended; the first starts at `origin`. */
  predicate Chained(origin: State, h: seq<StateTransition>) {
    && (h != [] ==> h[0].fromState == origin)
    && (forall i :: 0 <= i < |h| - 1 ==> h[i].toState == h[i + 1].fromState)
  }

  /** The state reached after replaying a history from `origin`. */
  function Reached(origin: State, h: seq<StateTransition>): State {
    if h == [] then origin else h[|h| - 1].toState
  }

  /** The mutable workflow context. */
  class WorkflowContext {
    var currentState: State
    var stateHistory: seq<StateTransition>
    var refinementCount: int
    var maxRefinements: int
    var errorMessage: Option<string>

    /**
     * The history explains the context: it is a chain of records from Init to
     * the current state, and the counter counts the moves into Refinement.
     */
    ghost predicate Valid()
      reads this
    {
      && Chained(Init, stateHistory)
      && currentState == Reached(Init, stateHistory)
      && refinementCount == RefinementsIn(stateHistory)
    }

    /** A fresh context; the refinement budget comes from the configuration. */
    constructor(maxRefinements: int)
      ensures Valid()
      ensures currentState == Init && stateHistory == [] && refinementCount == 0
      ensures this.maxRefinements == maxRefinements && errorMessage == None
    {
      currentState := Init;
      stateHistory := [];
      refinementCount := 0;
      this.maxRefinements := maxRefinements;
      errorMessage := None;
    }

    /**
     * Record a move and take it, with no legality check. A missing or empty
     * metadata dict is recorded as an empty one.
     */
    method TransitionTo(newState: State, metadata: Option<Fields>, timestamp: string)
      modifies this
      ensures stateHistory == old(stateHistory) + [StateTransition(old(currentState), newState, timestamp, metadata.GetOr([]))]
      ensures currentState == newState
      ensures refinementCount == old(refinementCount) + (if newState == Refinement then 1 else 0)
      ensures maxRefinements == old(maxRefinements) && errorMessage == old(errorMessage)
      ensures old(Valid()) ==> Valid()
    {
      var record := StateTransition(currentState, newState, timestamp, metadata.GetOr([]));
      stateHistory := stateHistory + [record];
      currentState := newState;
      if newState == Refinement {
        refinementCount := refinementCount + 1;
      }
      assert stateHistory[..|stateHistory| - 1] == old(stateHistory);
    }

    predicate CanRefine()
      reads this
    {
      refinementCount < maxRefinements
    }

    /** `get_progress_percentage`: full only when Complete, nothing at the start or after an error. */
    function Progress(): (r: nat)
      reads this
      ensures r <= 100
      ensures r == 100 <==> currentState == Complete
      ensures r == 0 <==> currentState == Init || currentState == Error
    {
      ProgressPercentage(currentState)
    }

    /** `get_current_step_name`: a non-empty name that no other state shares. */
    function CurrentStepName(): (r: string)
      reads this
      ensures r != []
      ensures forall s: State :: StepName(s) == r ==> s == currentState
    {
      StepNameNamesOneState(currentState);
      StepName(currentState)
    }
  }

  /** Appending one record keeps the earlier records and adds at most one refinement. */
  lemma {:induction false} RefinementsInAppend(h: seq<StateTransition>, t: StateTransition)
    ensures RefinementsIn(h + [t]) == RefinementsIn(h) + (if t.toState == Refinement then 1 else 0)
  {
    assert (h + [t])[..|h + [t]| - 1] == h;
  }

  lemma {:induction false} RefinementsInPrefix(h: seq<StateTransition>, k: nat)
    requires k <= |h|
    ensures RefinementsIn(h[..k]) <= RefinementsIn(h)
    decreases |h|
  {
    if k < |h| {
      assert h[..|h| - 1][..k] == h[..k];
      RefinementsInPrefix(h[..|h| - 1], k);
    } else {
      assert h[..k] == h;
    }
  }
}

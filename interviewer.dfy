/**
 * One turn of the interview: the language model's verdict on the user's
 * answer decides whether the answer is stored and the interview advances.
 * The model's reply is an input: `None` when its text is not valid JSON,
 * otherwise the parsed value.
 */
module Interviewer {
  import opened Wrappers
  import opened Errors
  import opened JsonData
  import opened Questionnaire
  import opened DataModels

  const AlreadyComplete := "The interview is already complete. Thank you!"
  const PleaseRepeat := "I'm sorry, I had trouble processing that. Could you please repeat?"
  const AllGathered := "Thank you! I have gathered all the necessary information."

  /** Python's `xs[i]`: negative indices count from the end; `None` is the `IndexError`. */
  function PyIndex<T>(xs: seq<T>, i: int): (r: Option<T>)
    ensures r.Some? <==> -|xs| <= i < |xs|
    ensures 0 <= i < |xs| ==> r == Some(xs[i])
    ensures -|xs| <= i < 0 ==> r == Some(xs[|xs| + i])
  {
    if 0 <= i < |xs| then Some(xs[i])
    else if -|xs| <= i < 0 then Some(xs[|xs| + i])
    else None
  }

  /** The parts of the interview state a turn reads and writes. */
  datatype Snapshot = Snapshot(index: int, profile: Fields, complete: bool)

  /** What a turn returns besides the (shared) state object. */
  datatype TurnResult = TurnResult(response: Json, isComplete: bool, finalProfile: Option<Fields>)

  datatype TurnOutcome = TurnOutcome(result: Result<TurnResult, PyError>, after: Snapshot)

  /** The LLM judged the answer acceptable. */
  predicate Accepted(reply: Json) {
    reply.JObject? && Get(reply.fields, "is_valid").Some? && Truthy(Get(reply.fields, "is_valid").value)
  }

  /** The reply to a rejected answer: the model's message, else the clarification, else the question. */
  function Reprompt(reply: Fields, q: InterviewQuestion): (r: Json)
    ensures HasKey(reply, "next_message") ==> r == Get(reply, "next_message").value
    ensures !HasKey(reply, "next_message") && q.clarificationPrompt.Some? && q.clarificationPrompt.value != []
            ==> r == JStr(q.clarificationPrompt.value)
    ensures !HasKey(reply, "next_message") && (q.clarificationPrompt.None? || q.clarificationPrompt.value == [])
            ==> r == JStr(q.text)
  {
    match Get(reply, "next_message")
    case Some(m) => m
    case None =>
      match q.clarificationPrompt
      case Some(c) => if c != [] then JStr(c) else JStr(q.text)
      case None => JStr(q.text)
  }

  /** The effect of one turn on the interview state. */
  function Turn(s: Snapshot, reply: Option<Json>): (o: TurnOutcome)
    // A finished interview answers politely and changes nothing.
    ensures s.complete ==> o == TurnOutcome(Success(TurnResult(JStr(AlreadyComplete), true, None)), s)
    // An index outside the question list fails before the model is consulted.
    ensures !s.complete && PyIndex(Questions(), s.index).None? ==> o.result.Failure? && o.after == s
    // An unparseable reply leaves the state as it was.
    ensures !s.complete && PyIndex(Questions(), s.index).Some? && reply.None?
            ==> o == TurnOutcome(Success(TurnResult(JStr(PleaseRepeat), false, None)), s)
    // A rejected answer leaves the state as it was and re-prompts.
    ensures !s.complete && PyIndex(Questions(), s.index).Some? && reply.Some? && reply.value.JObject?
            && !Accepted(reply.value)
            ==> o == TurnOutcome(Success(TurnResult(Reprompt(reply.value.fields, PyIndex(Questions(), s.index).value), false, None)), s)
    // An accepted answer is stored under the question's field and the index moves on by one.
    ensures !s.complete && PyIndex(Questions(), s.index).Some? && reply.Some? && Accepted(reply.value)
            && HasKey(reply.value.fields, "extracted_value")
            ==> var q := PyIndex(Questions(), s.index).value;
                var value := Get(reply.value.fields, "extracted_value").value;
                && o.after.index == s.index + 1
                && o.after.profile == Put(s.profile, q.fieldName, value)
                && (o.after.complete <==> s.index + 1 >= |Questions()|)
                && (o.after.complete ==> o.result == Success(TurnResult(JStr(AllGathered), true, Some(o.after.profile))))
                && (!o.after.complete ==>
                      (PyIndex(Questions(), s.index + 1).Some?
                       && o.result == Success(TurnResult(JStr(PyIndex(Questions(), s.index + 1).value.text), false, None))))
    // Only an accepted answer changes the state.
    ensures o.after != s ==> !s.complete && reply.Some? && Accepted(reply.value)
  {
    if s.complete then TurnOutcome(Success(TurnResult(JStr(AlreadyComplete), true, None)), s)
    else
      match PyIndex(Questions(), s.index)
      case None => TurnOutcome(Failure(IndexError("list index out of range")), s)
      case Some(q) =>
        match reply
        case None => TurnOutcome(Success(TurnResult(JStr(PleaseRepeat), false, None)), s)
        case Some(out) =>
          if !out.JObject? then
            TurnOutcome(Failure(AttributeError("'" + TypeName(out) + "' object has no attribute 'get'")), s)
          else if Accepted(out) then
            match Get(out.fields, "extracted_value")
            case None => TurnOutcome(Failure(KeyError("extracted_value")), s)
            case Some(value) =>
              var profile := Put(s.profile, q.fieldName, value);
              var index := s.index + 1;
              if index >= |Questions()| then
                TurnOutcome(Success(TurnResult(JStr(AllGathered), true, Some(profile))), Snapshot(index, profile, true))
              else
                match PyIndex(Questions(), index)
                case None => TurnOutcome(Failure(IndexError("list index out of range")), Snapshot(index, profile, false))
                case Some(next) => TurnOutcome(Success(TurnResult(JStr(next.text), false, None)), Snapshot(index, profile, false))
          else
            TurnOutcome(Success(TurnResult(Reprompt(out.fields, q), false, None)), s)
  }

  /** `process_turn`: updates the passed state object in place. */
  method ProcessTurn(reply: Option<Json>, state: InterviewState) returns (r: Result<TurnResult, PyError>)
    modifies state
    ensures TurnOutcome(r, Snapshot(state.currentQuestionIndex, state.profileData, state.isComplete))
            == Turn(old(Snapshot(state.currentQuestionIndex, state.profileData, state.isComplete)), reply)
    ensures state.conversationHistory == old(state.conversationHistory)
  {
    if state.isComplete {
      return Success(TurnResult(JStr(AlreadyComplete), true, None));
    }
    var current := PyIndex(Questions(), state.currentQuestionIndex);
    if current.None? {
      return Failure(IndexError("list index out of range"));
    }
    var q := current.value;
    if reply.None? {
      return Success(TurnResult(JStr(PleaseRepeat), false, None));
    }
    var out := reply.value;
    if !out.JObject? {
      return Failure(AttributeError("'" + TypeName(out) + "' object has no attribute 'get'"));
    }
    if Accepted(out) {
      var extracted := Get(out.fields, "extracted_value");
      if extracted.None? {
        return Failure(KeyError("extracted_value"));
      }
      state.profileData := Put(state.profileData, q.fieldName, extracted.value);
      state.currentQuestionIndex := state.currentQuestionIndex + 1;
      if state.currentQuestionIndex >= |Questions()| {
        state.isComplete := true;
        return Success(TurnResult(JStr(AllGathered), true, Some(state.profileData)));
      }
      var next := PyIndex(Questions(), state.currentQuestionIndex);
      if next.None? {
        return Failure(IndexError("list index out of range"));
      }
      return Success(TurnResult(JStr(next.value.text), false, None));
    }
    return Success(TurnResult(Reprompt(out.fields, q), false, None));
  }

  /** A reply that accepts the answer and extracts a value. */
  predicate AcceptsWithValue(reply: Option<Json>) {
    reply.Some? && Accepted(reply.value) && HasKey(reply.value.fields, "extracted_value")
  }

  /** The state after a sequence of turns (results discarded). */
  function RunTurns(s: Snapshot, replies: seq<Option<Json>>): Snapshot
    decreases |replies|
  {
    if replies == [] then s else RunTurns(Turn(s, replies[0]).after, replies[1..])
  }

  /** One accepted answer to an in-range question. */
  lemma AcceptedStep(s: Snapshot, reply: Option<Json>)
    requires !s.complete && 0 <= s.index < |Questions()| && AcceptsWithValue(reply)
    ensures Turn(s, reply).after.index == s.index + 1
    ensures Turn(s, reply).after.complete <==> s.index + 1 == |Questions()|
    ensures HasKey(Turn(s, reply).after.profile, Questions()[s.index].fieldName)
  {
    var name := Questions()[s.index].fieldName;
    assert Get(Turn(s, reply).after.profile, name).Some?;
  }

  /** No turn forgets an answer. */
  lemma TurnKeepsAnswers(s: Snapshot, reply: Option<Json>, name: string)
    requires HasKey(s.profile, name)
    ensures HasKey(Turn(s, reply).after.profile, name)
  {
    var t := Turn(s, reply).after;
    if t.profile != s.profile {
      var q := PyIndex(Questions(), s.index).value;
      if name != q.fieldName {
        assert Get(t.profile, name) == Get(s.profile, name);
      } else {
        assert Get(t.profile, name).Some?;
      }
    }
  }

  lemma {:induction false} RunKeepsAnswers(s: Snapshot, replies: seq<Option<Json>>, name: string)
    requires HasKey(s.profile, name)
    ensures HasKey(RunTurns(s, replies).profile, name)
    decreases |replies|
  {
    if replies != [] {
      TurnKeepsAnswers(s, replies[0], name);
      RunKeepsAnswers(Turn(s, replies[0]).after, replies[1..], name);
    }
  }

  /** Answering every remaining question acceptably completes the interview. */
  lemma {:induction false} InterviewCompletes(s: Snapshot, replies: seq<Option<Json>>)
    requires !s.complete && 0 <= s.index < |Questions()| && s.index + |replies| == |Questions()|
    requires forall k :: 0 <= k < |replies| ==> AcceptsWithValue(replies[k])
    ensures RunTurns(s, replies).complete
    ensures RunTurns(s, replies).index == |Questions()|
    decreases |replies|
  {
    AcceptedStep(s, replies[0]);
    var t := Turn(s, replies[0]).after;
    var rest := replies[1..];
    assert RunTurns(s, replies) == RunTurns(t, rest);
    if rest != [] {
      assert forall k :: 0 <= k < |rest| ==> rest[k] == replies[k + 1];
      InterviewCompletes(t, rest);
    }
  }

  /** ... and leaves an answer under the field of every question it asked. */
  lemma {:induction false} InterviewStoresAnswers(s: Snapshot, replies: seq<Option<Json>>, k: nat)
    requires !s.complete && 0 <= s.index <= k < |Questions()| && s.index + |replies| == |Questions()|
    requires forall j :: 0 <= j < |replies| ==> AcceptsWithValue(replies[j])
    ensures HasKey(RunTurns(s, replies).profile, Questions()[k].fieldName)
    decreases |replies|
  {
    AcceptedStep(s, replies[0]);
    var t := Turn(s, replies[0]).after;
    var rest := replies[1..];
    assert RunTurns(s, replies) == RunTurns(t, rest);
    if k == s.index {
      RunKeepsAnswers(t, rest, Questions()[k].fieldName);
    } else {
      assert forall j :: 0 <= j < |rest| ==> rest[j] == replies[j + 1];
      InterviewStoresAnswers(t, rest, k);
    }
  }
}

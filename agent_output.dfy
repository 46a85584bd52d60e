/**
 * Reducing an agent run to its answer text. A run is the stream of events
 * the agent emitted and the session history afterwards; both are inputs.
 * The latest text part with non-blank content is the answer; earlier ones
 * are overwritten, never concatenated.
 */
module AgentOutput {
  import opened Wrappers
  import opened Text
  import opened Errors

  /** A content part; tool calls and tool results carry no text. */
  datatype Part = Part(text: Option<string>)

  /** An event's content; a missing content or part list is an empty one. */
  datatype Event = Event(parts: seq<Part>)

  /** The agent's events and the session history, or the exception it raised. */
  datatype AgentRun =
    | Ran(events: seq<Event>, history: seq<Event>)
    | Crashed(error: PyError)

  /** A part whose text has non-whitespace content. */
  predicate NonBlank(p: Part) {
    p.text.Some? && Strip(p.text.value) != []
  }

  /** Every part of every event, in emission order. */
  function AllParts(events: seq<Event>): (r: seq<Part>)
    ensures events == [] ==> r == []
  {
    if events == [] then [] else AllParts(events[..|events| - 1]) + events[|events| - 1].parts
  }

  /** The text of the last non-blank part, or "" when there is none. */
  function LastText(parts: seq<Part>): (r: string)
  {
    if parts == [] then []
    else if NonBlank(parts[|parts| - 1]) then parts[|parts| - 1].text.value
    else LastText(parts[..|parts| - 1])
  }

  /** No answer is found exactly when every part is blank. */
  lemma {:induction false} LastTextEmpty(parts: seq<Part>)
    ensures LastText(parts) == [] <==> forall i :: 0 <= i < |parts| ==> !NonBlank(parts[i])
  {
    if parts != [] {
      var n := |parts| - 1;
      var init := parts[..n];
      LastTextEmpty(init);
      if NonBlank(parts[n]) {
        NonBlankHasText(parts[n]);
      } else if LastText(init) == [] {
        forall i | 0 <= i < |parts|
          ensures !NonBlank(parts[i])
        {
          if i < n {
            assert parts[i] == init[i];
          }
        }
      } else {
        var i :| 0 <= i < |init| && NonBlank(init[i]);
        assert parts[i] == init[i];
      }
    }
  }

  /** A non-blank part has non-empty text. */
  lemma NonBlankHasText(p: Part)
    requires NonBlank(p)
    ensures p.text.value != []
  {
    assert |Strip(p.text.value)| <= |p.text.value|;
  }

  /** Part `i` is non-blank and every later part is blank. */
  predicate LastNonBlankAt(parts: seq<Part>, i: int) {
    0 <= i < |parts| && NonBlank(parts[i]) && forall j :: i < j < |parts| ==> !NonBlank(parts[j])
  }

  /** The answer is the text of a non-blank part after which every part is blank. */
  lemma {:induction false} LastTextIsLast(parts: seq<Part>)
    requires LastText(parts) != []
    ensures exists i :: LastNonBlankAt(parts, i) && LastText(parts) == parts[i].text.value
  {
    var n := |parts| - 1;
    if NonBlank(parts[n]) {
      assert LastNonBlankAt(parts, n);
    } else {
      var init := parts[..n];
      assert LastText(parts) == LastText(init);
      LastTextIsLast(init);
      var i :| LastNonBlankAt(init, i) && LastText(init) == init[i].text.value;
      BlankPartKeepsLast(parts, i);
      assert parts[i] == init[i];
    }
  }

  /** A blank part appended after the last non-blank one leaves it the last. */
  lemma BlankPartKeepsLast(parts: seq<Part>, i: int)
    requires |parts| > 0 && !NonBlank(parts[|parts| - 1])
    requires LastNonBlankAt(parts[..|parts| - 1], i)
    ensures LastNonBlankAt(parts, i)
  {
    var init := parts[..|parts| - 1];
    assert parts[i] == init[i];
    forall j | i < j < |parts|
      ensures !NonBlank(parts[j])
    {
      if j < |parts| - 1 {
        assert parts[j] == init[j];
      }
    }
  }

  /** A further part replaces the answer exactly when it is non-blank. */
  lemma LastTextAppend(parts: seq<Part>, more: seq<Part>)
    ensures LastText(parts + more) == if LastText(more) != [] then LastText(more) else LastText(parts)
    decreases |more|
  {
    if more != [] {
      assert (parts + more)[..|parts + more| - 1] == parts + more[..|more| - 1];
      LastTextAppend(parts, more[..|more| - 1]);
      if NonBlank(more[|more| - 1]) {
        assert more[|more| - 1].text.value != [];
      }
    } else {
      assert parts + more == parts;
    }
  }

  /** The history fallback: the first part of the last history entry, if it has any text. */
  function HistoryText(history: seq<Event>): (r: string)
    ensures r != [] ==> history != [] && history[|history| - 1].parts != []
                        && history[|history| - 1].parts[0].text == Some(r)
  {
    if history != [] && history[|history| - 1].parts != [] then
      match history[|history| - 1].parts[0].text
      case Some(t) => t
      case None => []
    else []
  }

  function EmptyOutput(agentName: string): PyError {
    ValueError("Agent " + agentName + " did not return any text response (Empty Output).")
  }

  /** What `_execute_agent` returns, or raises, for a run. */
  function Answer(agentName: string, run: AgentRun): (r: Result<string, PyError>)
    ensures r.Success? ==> r.value != []
    ensures run.Crashed? ==> r == Failure(run.error)
    ensures run.Ran? && LastText(AllParts(run.events)) != [] ==> r == Success(LastText(AllParts(run.events)))
    ensures run.Ran? && LastText(AllParts(run.events)) == [] && HistoryText(run.history) != []
            ==> r == Success(HistoryText(run.history))
    ensures run.Ran? && LastText(AllParts(run.events)) == [] && HistoryText(run.history) == []
            ==> r == Failure(EmptyOutput(agentName))
  {
    match run
    case Crashed(e) => Failure(e)
    case Ran(events, history) =>
      var t := LastText(AllParts(events));
      if t != [] then Success(t)
      else if HistoryText(history) != [] then Success(HistoryText(history))
      else Failure(EmptyOutput(agentName))
  }

  /**
   * An answer taken from the events is never blank, but the history
   * fallback accepts any non-empty text, whitespace included.
   */
  lemma FallbackAcceptsBlank(agentName: string, events: seq<Event>, w: string)
    requires forall i :: 0 <= i < |AllParts(events)| ==> !NonBlank(AllParts(events)[i])
    requires w != [] && AllSpace(w)
    ensures Answer(agentName, Ran(events, [Event([Part(Some(w))])])) == Success(w)
  {
    LastTextEmpty(AllParts(events));
  }

  /** The inner loop over one event's parts: a non-blank part overwrites the answer so far. */
  method LatestText(sofar: string, parts: seq<Part>) returns (t: string)
    ensures t == if LastText(parts) != [] then LastText(parts) else sofar
  {
    t := sofar;
    var j := 0;
    while j < |parts|
      invariant 0 <= j <= |parts|
      invariant t == if LastText(parts[..j]) != [] then LastText(parts[..j]) else sofar
    {
      var part := parts[j];
      if part.text.Some? && part.text.value != [] {
        if Strip(part.text.value) != [] {
          t := part.text.value;
        }
      }
      assert parts[..j + 1][..j] == parts[..j];
      j := j + 1;
    }
    assert parts[..j] == parts;
  }

  /** The event loop of `_execute_agent` and its fallback to the session history. */
  method ExecuteAgent(agentName: string, run: AgentRun) returns (r: Result<string, PyError>)
    ensures r == Answer(agentName, run)
  {
    if run.Crashed? {
      return Failure(run.error);
    }
    var events := run.events;
    var finalText: string := [];
    var i := 0;
    while i < |events|
      invariant 0 <= i <= |events|
      invariant finalText == LastText(AllParts(events[..i]))
    {
      finalText := LatestText(finalText, events[i].parts);
      assert events[..i + 1][..i] == events[..i];
      LastTextAppend(AllParts(events[..i]), events[i].parts);
      i := i + 1;
    }
    assert events[..i] == events;
    if finalText == [] {
      var history := run.history;
      if history != [] && history[|history| - 1].parts != [] {
        var lastPart := history[|history| - 1].parts[0];
        if lastPart.text.Some? && lastPart.text.value != [] {
          finalText := lastPart.text.value;
        }
      }
      if finalText == [] {
        return Failure(EmptyOutput(agentName));
      }
    }
    return Success(finalText);
  }
}

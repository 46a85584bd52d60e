/**
 * Pulling a JSON value out of an agent's free-text answer: three strategies
 * tried in order, the first success wins.
 *
 * `json.loads` and the brace-pattern regex are parameters: `parse` gives the
 * decoded value or `None` for a decode error, `scan` the regex matches in
 * order of appearance.
 */
module JsonExtraction {
  import opened Wrappers
  import opened Text
  import opened Errors
  import opened JsonData

  const JsonFence := "```json"
  const Fence := "```"
  const PreviewLength := 300
  const NoJsonMessage := "Could not extract valid JSON from response. Response preview (first 300 chars): "

  /**
   * `all(key in data for key in keys)`: stops at the first missing key; a
   * `TypeError` from `in` on a value that is not a container escapes.
   */
  function AllKeysIn(keys: seq<string>, data: Json): (r: Result<bool, PyError>)
    ensures data.JObject? ==> r == Success(forall i :: 0 <= i < |keys| ==> HasKey(data.fields, keys[i]))
    ensures keys != [] && !(data.JObject? || data.JArray? || data.JStr?) ==> r.Failure? && r.error.TypeError?
    ensures keys == [] ==> r == Success(true)
  {
    if keys == [] then Success(true)
    else
      var here :- KeyIn(keys[0], data);
      if !here then Success(false)
      else
        var rest := AllKeysIn(keys[1..], data);
        assert data.JObject? ==> rest == Success(forall i :: 1 <= i < |keys| ==> HasKey(data.fields, keys[i]));
        rest
  }

  /**
   * Strategies 1 and 2: a decoded value is taken when no keys are required,
   * or when all of them are `in` it. `None` means "try the next strategy".
   */
  function TryWhole(candidate: string, keys: seq<string>, parse: string -> Option<Json>): (r: Result<Option<Json>, PyError>)
    ensures parse(candidate).None? ==> r == Success(None)
    ensures parse(candidate).Some? && keys == [] ==> r == Success(parse(candidate))
    ensures r.Success? && r.value.Some? ==> r.value == parse(candidate)
    ensures r.Success? && r.value.Some? ==> AllKeysIn(keys, r.value.value) == Success(true)
    ensures r.Failure? ==> parse(candidate).Some? && AllKeysIn(keys, parse(candidate).value).Failure?
  {
    match parse(candidate)
    case None => Success(None)
    case Some(data) =>
      if keys == [] then Success(Some(data))
      else
        var all :- AllKeysIn(keys, data);
        if all then Success(Some(data)) else Success(None)
  }

  /** What strategy 3 accepts: a non-empty dict holding every required key. */
  predicate Acceptable(data: Json, keys: seq<string>) {
    data.JObject? && data.fields != [] && forall i :: 0 <= i < |keys| ==> HasKey(data.fields, keys[i])
  }

  predicate Accepts(candidate: string, keys: seq<string>, parse: string -> Option<Json>) {
    parse(candidate).Some? && Acceptable(parse(candidate).value, keys)
  }

  /** Strategy 3: the first regex match that decodes to an acceptable dict. */
  function FirstAcceptable(matches: seq<string>, keys: seq<string>, parse: string -> Option<Json>): (r: Option<Json>)
    ensures r.Some? ==> Acceptable(r.value, keys)
  {
    if matches == [] then None
    else if Accepts(matches[0], keys, parse) then parse(matches[0])
    else FirstAcceptable(matches[1..], keys, parse)
  }

  /**
   * Strategy 3 skips every match that fails to decode, is not a non-empty
   * dict or lacks a key, and takes the first one that survives.
   */
  lemma {:induction false} FirstAcceptableIsFirst(matches: seq<string>, keys: seq<string>, parse: string -> Option<Json>)
    ensures FirstAcceptable(matches, keys, parse).Some? <==> exists i :: 0 <= i < |matches| && Accepts(matches[i], keys, parse)
    ensures FirstAcceptable(matches, keys, parse).Some? ==>
      exists i :: 0 <= i < |matches| && Accepts(matches[i], keys, parse)
                  && FirstAcceptable(matches, keys, parse) == parse(matches[i])
                  && forall j :: 0 <= j < i ==> !Accepts(matches[j], keys, parse)
  {
    if matches != [] && !Accepts(matches[0], keys, parse) {
      var tail := matches[1..];
      FirstAcceptableIsFirst(tail, keys, parse);
      assert forall i :: 1 <= i < |matches| ==> matches[i] == tail[i - 1];
      if FirstAcceptable(tail, keys, parse).Some? {
        var i :| 0 <= i < |tail| && Accepts(tail[i], keys, parse) && FirstAcceptable(tail, keys, parse) == parse(tail[i])
                 && forall j :: 0 <= j < i ==> !Accepts(tail[j], keys, parse);
        assert forall j :: 0 <= j < i + 1 ==> !Accepts(matches[j], keys, parse);
        assert Accepts(matches[i + 1], keys, parse);
      } else {
        assert forall i :: 0 <= i < |matches| ==> !Accepts(matches[i], keys, parse);
      }
    } else if matches != [] {
      assert Accepts(matches[0], keys, parse);
    }
  }

  /** The text strategy 2 re-parses: fences removed anywhere, then stripped. */
  function Unfenced(text: string): string {
    Strip(ReplaceAll(ReplaceAll(text, JsonFence, ""), Fence, ""))
  }

  /** The error raised when every strategy fails. */
  function NoJson(text: string): (e: PyError)
    ensures e.ValueError? && StartsWith(e.msg, NoJsonMessage)
    ensures |e.msg| <= |NoJsonMessage| + PreviewLength
  {
    var msg := NoJsonMessage + Take(text, PreviewLength);
    assert msg[..|NoJsonMessage|] == NoJsonMessage;
    ValueError(msg)
  }

  /** `_extract_json_from_response(text, keys)`, strategy by strategy. */
  function Extracted(text: string, keys: seq<string>, parse: string -> Option<Json>, scan: string -> seq<string>): Result<Json, PyError> {
    var first :- TryWhole(Strip(text), keys, parse);
    if first.Some? then Success(first.value)
    else
      var second :- TryWhole(Unfenced(text), keys, parse);
      if second.Some? then Success(second.value)
      else
        match FirstAcceptable(scan(text), keys, parse)
        case Some(data) => Success(data)
        case None => Failure(NoJson(text))
  }

  /** The extraction loop: the three strategies in order, with early returns. */
  method ExtractJson(text: string, keys: seq<string>, parse: string -> Option<Json>, scan: string -> seq<string>)
    returns (r: Result<Json, PyError>)
    ensures r == Extracted(text, keys, parse, scan)
  {
    var first := TryWhole(Strip(text), keys, parse);
    if first.Failure? {
      return Failure(first.error);
    }
    if first.value.Some? {
      return Success(first.value.value);
    }
    var second := TryWhole(Unfenced(text), keys, parse);
    if second.Failure? {
      return Failure(second.error);
    }
    if second.value.Some? {
      return Success(second.value.value);
    }
    var found := ScanCandidates(scan(text), keys, parse);
    if found.Some? {
      return Success(found.value);
    }
    return Failure(NoJson(text));
  }

  /** Strategy 3's loop: the regex candidates in order, returning the first that parses to a dict holding the keys. */
  method ScanCandidates(matches: seq<string>, keys: seq<string>, parse: string -> Option<Json>) returns (r: Option<Json>)
    ensures r == FirstAcceptable(matches, keys, parse)
  {
    var i := 0;
    while i < |matches|
      invariant 0 <= i <= |matches|
      invariant FirstAcceptable(matches, keys, parse) == FirstAcceptable(matches[i..], keys, parse)
    {
      var data := parse(matches[i]);
      if data.Some? && data.value.JObject? && data.value.fields != [] {
        var all := AllKeysIn(keys, data.value);
        if all.value {
          assert Accepts(matches[i..][0], keys, parse);
          return Some(data.value);
        }
      }
      assert matches[i..][1..] == matches[i + 1..];
      i := i + 1;
    }
    return None;
  }

  /** Strategy 1 wins whenever the stripped text decodes and holds the keys. */
  lemma DirectParseFirst(text: string, keys: seq<string>, parse: string -> Option<Json>, scan: string -> seq<string>, data: Json)
    requires parse(Strip(text)) == Some(data) && AllKeysIn(keys, data) == Success(true)
    ensures Extracted(text, keys, parse, scan) == Success(data)
  {
  }

  /**
   * Without required keys the first two strategies take any decoded value,
   * a list or a number as well as a dict.
   */
  lemma NoKeysTakesAnyValue(text: string, parse: string -> Option<Json>, scan: string -> seq<string>)
    requires parse(Strip(text)).Some? || parse(Unfenced(text)).Some?
    ensures Extracted(text, [], parse, scan).Success?
    ensures parse(Strip(text)).Some? ==> Extracted(text, [], parse, scan) == Success(parse(Strip(text)).value)
    ensures parse(Strip(text)).None? ==> Extracted(text, [], parse, scan) == Success(parse(Unfenced(text)).value)
  {
  }

  /**
   * A successful extraction with required keys yields a value holding every
   * key: whatever the strategy, a dict result has them all.
   */
  lemma ExtractedDictHasKeys(text: string, keys: seq<string>, parse: string -> Option<Json>, scan: string -> seq<string>)
    requires Extracted(text, keys, parse, scan).Success?
    requires Extracted(text, keys, parse, scan).value.JObject?
    ensures forall i :: 0 <= i < |keys| ==> HasKey(Extracted(text, keys, parse, scan).value.fields, keys[i])
  {
    var first := TryWhole(Strip(text), keys, parse);
    var second := TryWhole(Unfenced(text), keys, parse);
    if first.value.Some? {
      assert Extracted(text, keys, parse, scan) == Success(first.value.value);
    } else if second.value.Some? {
      assert Extracted(text, keys, parse, scan) == Success(second.value.value);
    } else {
      assert Extracted(text, keys, parse, scan) == Success(FirstAcceptable(scan(text), keys, parse).value);
    }
  }

  /**
   * When every strategy fails the error is a `ValueError` whose preview holds
   * at most the first 300 characters of the answer.
   */
  lemma FailurePreviewBounded(text: string, keys: seq<string>, parse: string -> Option<Json>, scan: string -> seq<string>)
    requires parse(Strip(text)).None? && parse(Unfenced(text)).None?
    requires forall i :: 0 <= i < |scan(text)| ==> !Accepts(scan(text)[i], keys, parse)
    ensures Extracted(text, keys, parse, scan) == Failure(NoJson(text))
    ensures NoJson(text).msg == NoJsonMessage + Take(text, PreviewLength)
  {
    FirstAcceptableIsFirst(scan(text), keys, parse);
  }
}

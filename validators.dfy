/**
 * The evaluation harness's checks on stage outputs: one validator per stage,
 * each collecting blocking issues and advisory warnings, the code-fence
 * cleaner applied to raw answers, and the plain-text report over a run's
 * validations.
 *
 * A stage output is a parsed JSON dict. The validators index it as Python
 * does, so a value of an unexpected type raises; those exceptions are the
 * `Failure` results.
 */
module Validators {
  import opened Wrappers
  import opened Text
  import opened Errors
  import opened JsonData

  /** The dict every validator returns. */
  datatype Report = Report(valid: bool, issues: seq<string>, warnings: seq<string>)

  /** A report is valid exactly when it has no issues; warnings play no part. */
  function MakeReport(issues: seq<string>, warnings: seq<string>): (r: Report)
    ensures r.valid <==> issues == []
    ensures r.issues == issues && r.warnings == warnings
  {
    Report(issues == [], issues, warnings)
  }

  // ---------------------------------------------------------------------------
  // Required fields
  // ---------------------------------------------------------------------------

  const MissingPrefix := "Missing required field: "

  function MissingIssue(field: string): (r: string)
    ensures StartsWith(r, MissingPrefix) && r[|MissingPrefix|..] == field
  {
    var r := MissingPrefix + field;
    assert r[..|MissingPrefix|] == MissingPrefix;
    r
  }

  /** One issue per required field absent from `output`, in the order of `required`. */
  function MissingIssues(required: seq<string>, output: Fields): (r: seq<string>)
    ensures |r| <= |required|
  {
    if required == [] then []
    else
      var f := required[|required| - 1];
      MissingIssues(required[..|required| - 1], output) + (if HasKey(output, f) then [] else [MissingIssue(f)])
  }

  /** No issue is reported exactly when every required field is present. */
  lemma {:induction false} MissingIssuesEmpty(required: seq<string>, output: Fields)
    ensures MissingIssues(required, output) == [] <==> forall i :: 0 <= i < |required| ==> HasKey(output, required[i])
  {
    if required != [] {
      var init := required[..|required| - 1];
      MissingIssuesEmpty(init, output);
      assert forall i :: 0 <= i < |init| ==> init[i] == required[i];
    }
  }

  /** An issue names a field exactly when that field is required and absent. */
  lemma {:induction false} MissingIssueIff(required: seq<string>, output: Fields, f: string)
    ensures MissingIssue(f) in MissingIssues(required, output) <==> f in required && !HasKey(output, f)
  {
    if required != [] {
      var init := required[..|required| - 1];
      var g := required[|required| - 1];
      MissingIssueIff(init, output, f);
      assert required == init + [g];
      if MissingIssue(f) == MissingIssue(g) {
        assert f == MissingIssue(f)[|MissingPrefix|..] == g;
      }
    }
  }

  /** With distinct required names, a missing field is reported exactly once. */
  lemma {:induction false} MissingIssueOnce(required: seq<string>, output: Fields, f: string)
    requires forall i, j :: 0 <= i < j < |required| ==> required[i] != required[j]
    requires f in required && !HasKey(output, f)
    ensures multiset(MissingIssues(required, output))[MissingIssue(f)] == 1
  {
    var init := required[..|required| - 1];
    var g := required[|required| - 1];
    assert required == init + [g];
    var rest := multiset(MissingIssues(init, output));
    if f == g {
      assert f !in init;
      MissingIssueIff(init, output, f);
      assert rest[MissingIssue(f)] == 0;
    } else {
      assert f in init;
      MissingIssueOnce(init, output, f);
      assert MissingIssue(f) != MissingIssue(g) by {
        assert MissingIssue(f)[|MissingPrefix|..] == f;
        assert MissingIssue(g)[|MissingPrefix|..] == g;
      }
    }
  }

  /** The issues for a concatenated list are the issues of each part, in order. */
  lemma {:induction false} MissingIssuesAppend(r1: seq<string>, r2: seq<string>, output: Fields)
    ensures MissingIssues(r1 + r2, output) == MissingIssues(r1, output) + MissingIssues(r2, output)
    decreases |r2|
  {
    if r2 == [] {
      assert r1 + r2 == r1;
    } else {
      var init := r2[..|r2| - 1];
      var f := r2[|r2| - 1];
      var whole := r1 + r2;
      assert whole[..|whole| - 1] == r1 + init;
      assert whole[|whole| - 1] == f;
      MissingIssuesAppend(r1, init, output);
      var tail := if HasKey(output, f) then [] else [MissingIssue(f)];
      assert MissingIssues(whole, output) == MissingIssues(r1 + init, output) + tail;
      assert MissingIssues(r2, output) == MissingIssues(init, output) + tail;
    }
  }

  /** The required-field loop shared by every validator. */
  method CheckRequired(required: seq<string>, output: Fields) returns (issues: seq<string>)
    ensures issues == MissingIssues(required, output)
  {
    issues := [];
    var i := 0;
    while i < |required|
      invariant 0 <= i <= |required|
      invariant issues == MissingIssues(required[..i], output)
    {
      var field := required[i];
      if !HasKey(output, field) {
        issues := issues + [MissingIssue(field)];
      }
      assert required[..i + 1][..i] == required[..i];
      i := i + 1;
    }
    assert required[..i] == required;
  }

  // ---------------------------------------------------------------------------
  // Python helpers the checks rely on
  // ---------------------------------------------------------------------------

  /** `output[k]` for a key known to be present. */
  function Field(output: Fields, k: string): Json
    requires HasKey(output, k)
  {
    Get(output, k).value
  }

  /** Python's `len(x)`, raising `TypeError` for a value without a length. */
  function PyLen(j: Json): (r: Result<nat, PyError>)
    ensures r.Success? <==> j.JStr? || j.JArray? || j.JObject?
    ensures r.Success? ==> Len(j) == Some(r.value)
    ensures r.Failure? ==> r.error.TypeError?
  {
    match Len(j)
    case Some(n) => Success(n)
    case None => Failure(TypeError("object of type '" + TypeName(j) + "' has no len()"))
  }

  /**
   * A size warning on an optional field: `below` when its length is under
   * `low`, otherwise `above` when it is over `high`.
   */
  function SizeWarnings(output: Fields, k: string, low: nat, high: nat, below: string, above: string): (r: Result<seq<string>, PyError>)
    ensures !HasKey(output, k) ==> r == Success([])
    ensures r.Failure? <==> HasKey(output, k) && PyLen(Field(output, k)).Failure?
    ensures r.Success? && HasKey(output, k) ==>
      var n := PyLen(Field(output, k)).value;
      r.value == if n < low then [below] else if n > high then [above] else []
  {
    if !HasKey(output, k) then Success([])
    else
      var n :- PyLen(Field(output, k));
      Success(if n < low then [below] else if n > high then [above] else [])
  }

  // ---------------------------------------------------------------------------
  // Problem formulation
  // ---------------------------------------------------------------------------

  const ProblemRequired := ["problem_statement", "main_research_question", "secondary_questions", "key_variables", "preliminary_literature"]
  const ShortStatement := "Problem statement seems too short (< 50 chars)"
  const LongStatement := "Problem statement seems too long (> 500 chars)"
  const NoLiterature := "No literature found - google_search may have failed"
  const FewSecondary := "Only 1 secondary question (expected 2-4)"
  const ManySecondary := "Too many secondary questions (> 5)"
  const FabricatedPrefix := "Fabricated link detected: "
  const InvalidUrlPrefix := "Invalid URL format: "

  /** An upper-cased link that carries a placeholder marker. */
  predicate Fabricated(up: string) {
    Contains(up, "N/A") || Contains(up, "EXAMPLE") || Contains(up, "PLACEHOLDER")
  }

  /** An upper-cased link with an http or https scheme. */
  predicate HasScheme(up: string) {
    StartsWith(up, "HTTP://") || StartsWith(up, "HTTPS://")
  }

  /** A literature entry whose link, if it has one, is a real http(s) URL. */
  predicate LinkClean(lit: Json) {
    lit.JObject? && HasKey(lit.fields, "link") ==>
      var link := Field(lit.fields, "link");
      link.JStr? && !Fabricated(Upper(link.s)) && HasScheme(Upper(link.s))
  }

  function LiteratureCountWarnings(n: nat): (r: seq<string>)
    ensures n == 0 ==> r == [NoLiterature]
    ensures 3 <= n ==> r == []
  {
    if n == 0 then [NoLiterature]
    else if n < 3 then ["Only " + IntToString(n) + " literature entries (expected 3-5)"]
    else []
  }

  /** The link checks on one literature entry. */
  function LinkIssues(lit: Json): (r: Result<seq<string>, PyError>)
    ensures r.Success? ==> (r.value == [] <==> LinkClean(lit))
    ensures r.Success? ==> |r.value| <= 2
    ensures lit.JObject? && !HasKey(lit.fields, "link") ==> r == Success([])
    ensures !(lit.JObject? || lit.JArray? || lit.JStr?) ==> r.Failure? && r.error.TypeError?
  {
    var hasLink :- KeyIn("link", lit);
    if !hasLink then Success([])
    else
      var link :- Subscript(lit, "link");
      if !link.JStr? then Failure(AttributeError("'" + TypeName(link) + "' object has no attribute 'upper'"))
      else
        var up := Upper(link.s);
        var fabricated :-
          if Fabricated(up) then
            var title :- Subscript(lit, "title");
            Success([FabricatedPrefix + Show(title)])
          else Success([]);
        Success(fabricated + if HasScheme(up) then [] else [InvalidUrlPrefix + link.s])
  }

  /** The link issues of every entry, in order; the first entry that raises stops the loop. */
  function LiteratureIssues(lits: seq<Json>): (r: Result<seq<string>, PyError>)
    ensures r.Success? ==> (r.value == [] <==> forall i :: 0 <= i < |lits| ==> LinkClean(lits[i]))
  {
    if lits == [] then Success([])
    else
      var init := lits[..|lits| - 1];
      var before :- LiteratureIssues(init);
      var here :- LinkIssues(lits[|lits| - 1]);
      assert forall i :: 0 <= i < |init| ==> init[i] == lits[i];
      Success(before + here)
  }

  /** The literature loop. */
  method CheckLiterature(lits: seq<Json>) returns (r: Result<seq<string>, PyError>)
    ensures r == LiteratureIssues(lits)
  {
    var issues: seq<string> := [];
    var i := 0;
    while i < |lits|
      invariant 0 <= i <= |lits|
      invariant LiteratureIssues(lits[..i]) == Success(issues)
    {
      var here := LinkIssues(lits[i]);
      assert lits[..i + 1][..i] == lits[..i];
      if here.Failure? {
        assert LiteratureIssues(lits[..i + 1]) == Failure(here.error);
        LiteratureFailureSticks(lits, i + 1);
        return Failure(here.error);
      }
      issues := issues + here.value;
      i := i + 1;
    }
    assert lits[..i] == lits;
    return Success(issues);
  }

  /** Once a prefix of the entries raises, so does the whole loop, with the same error. */
  lemma {:induction false} LiteratureFailureSticks(lits: seq<Json>, n: nat)
    requires n <= |lits| && LiteratureIssues(lits[..n]).Failure?
    ensures LiteratureIssues(lits) == LiteratureIssues(lits[..n])
    decreases |lits| - n
  {
    if n < |lits| {
      assert lits[..n + 1][..n] == lits[..n];
      LiteratureFailureSticks(lits, n + 1);
    } else {
      assert lits[..n] == lits;
    }
  }

  /** The literature block: count warnings, then the link issues. */
  function LiteratureChecks(output: Fields): (r: Result<(seq<string>, seq<string>), PyError>)
    ensures !HasKey(output, "preliminary_literature") ==> r == Success(([], []))
    ensures r.Success? && HasKey(output, "preliminary_literature") ==>
      var lit := Field(output, "preliminary_literature");
      (lit.JArray? || lit.JObject? || lit.JStr?) && Iterate(lit).Success? &&
      LiteratureIssues(Iterate(lit).value) == Success(r.value.0)
  {
    if !HasKey(output, "preliminary_literature") then Success(([], []))
    else
      var lit := Field(output, "preliminary_literature");
      var n :- PyLen(lit);
      var issues :- LiteratureIssues(Iterate(lit).value);
      Success((issues, LiteratureCountWarnings(n)))
  }

  /** The literature block of the validator: the count warnings, then the link loop. */
  method CheckLiteratureBlock(output: Fields) returns (r: Result<(seq<string>, seq<string>), PyError>)
    ensures r == LiteratureChecks(output)
  {
    if !HasKey(output, "preliminary_literature") {
      return Success(([], []));
    }
    var lit := Field(output, "preliminary_literature");
    var n := PyLen(lit);
    if n.Failure? {
      return Failure(n.error);
    }
    var warnings := LiteratureCountWarnings(n.value);
    var issues := CheckLiterature(Iterate(lit).value);
    if issues.Failure? {
      return Failure(issues.error);
    }
    return Success((issues.value, warnings));
  }

  /** `validate_problem_definition(output)`. */
  function ProblemDefinitionReport(output: Fields): Result<Report, PyError> {
    var w1 :- SizeWarnings(output, "problem_statement", 50, 500, ShortStatement, LongStatement);
    var lit :- LiteratureChecks(output);
    var w3 :- SizeWarnings(output, "secondary_questions", 2, 5, FewSecondary, ManySecondary);
    Success(MakeReport(MissingIssues(ProblemRequired, output) + lit.0, w1 + lit.1 + w3))
  }

  method ValidateProblemDefinition(output: Fields) returns (r: Result<Report, PyError>)
    ensures r == ProblemDefinitionReport(output)
  {
    var issues := CheckRequired(ProblemRequired, output);
    var w1 := SizeWarnings(output, "problem_statement", 50, 500, ShortStatement, LongStatement);
    if w1.Failure? {
      return Failure(w1.error);
    }
    var literature := CheckLiteratureBlock(output);
    if literature.Failure? {
      return Failure(literature.error);
    }
    issues := issues + literature.value.0;
    var warnings := w1.value + literature.value.1;
    var w3 := SizeWarnings(output, "secondary_questions", 2, 5, FewSecondary, ManySecondary);
    if w3.Failure? {
      return Failure(w3.error);
    }
    warnings := warnings + w3.value;
    return Success(MakeReport(issues, warnings));
  }

  predicate AllLinksClean(lits: seq<Json>) {
    forall i :: 0 <= i < |lits| ==> LinkClean(lits[i])
  }

  /** Every required field is present and every literature link is clean. */
  predicate ProblemDefinitionSound(output: Fields) {
    && (forall i :: 0 <= i < |ProblemRequired| ==> HasKey(output, ProblemRequired[i]))
    && (HasKey(output, "preliminary_literature") && Iterate(Field(output, "preliminary_literature")).Success? ==>
          AllLinksClean(Iterate(Field(output, "preliminary_literature")).value))
  }

  /**
   * A problem definition passes exactly when nothing required is missing and
   * no link is fabricated or scheme-less: the lengths of the statement, the
   * literature and the secondary questions only ever warn.
   */
  lemma ProblemDefinitionValidity(output: Fields)
    requires ProblemDefinitionReport(output).Success?
    ensures ProblemDefinitionReport(output).value.valid <==> ProblemDefinitionSound(output)
  {
    MissingIssuesEmpty(ProblemRequired, output);
  }

  /** A statement under 50 characters draws the short-statement warning. */
  lemma ShortStatementWarns(output: Fields)
    requires HasKey(output, "problem_statement") && Field(output, "problem_statement").JStr?
    requires |Field(output, "problem_statement").s| < 50
    requires ProblemDefinitionReport(output).Success?
    ensures ShortStatement in ProblemDefinitionReport(output).value.warnings
  {
    var w1 := SizeWarnings(output, "problem_statement", 50, 500, ShortStatement, LongStatement);
    assert w1 == Success([ShortStatement]);
  }

  // ---------------------------------------------------------------------------
  // Objectives
  // ---------------------------------------------------------------------------

  const ObjectivesRequired := ["general_objective", "specific_objectives", "feasibility_notes"]
  const FewObjectives := "Less than 3 specific objectives"
  const ManyObjectives := "More than 6 specific objectives (may be too many)"

  /** `validate_objectives(output)`. */
  function ObjectivesReport(output: Fields): Result<Report, PyError> {
    var w :- SizeWarnings(output, "specific_objectives", 3, 6, FewObjectives, ManyObjectives);
    Success(MakeReport(MissingIssues(ObjectivesRequired, output), w))
  }

  method ValidateObjectives(output: Fields) returns (r: Result<Report, PyError>)
    ensures r == ObjectivesReport(output)
  {
    var issues := CheckRequired(ObjectivesRequired, output);
    var w := SizeWarnings(output, "specific_objectives", 3, 6, FewObjectives, ManyObjectives);
    if w.Failure? {
      return Failure(w.error);
    }
    return Success(MakeReport(issues, w.value));
  }

  /**
   * Objectives pass exactly when the three fields are present; the number
   * of specific objectives only warns, and raises only when it has no length.
   */
  lemma ObjectivesValidity(output: Fields)
    ensures ObjectivesReport(output).Failure? <==>
      HasKey(output, "specific_objectives") && PyLen(Field(output, "specific_objectives")).Failure?
    ensures ObjectivesReport(output).Success? ==>
      (ObjectivesReport(output).value.valid <==> forall i :: 0 <= i < |ObjectivesRequired| ==> HasKey(output, ObjectivesRequired[i]))
  {
    MissingIssuesEmpty(ObjectivesRequired, output);
  }

  // ---------------------------------------------------------------------------
  // Methodology
  // ---------------------------------------------------------------------------

  const MethodologyRequired := ["recommended_methodology", "methodology_type", "justification", "required_skills"]
  const MethodologyTypes := ["quantitative", "qualitative", "mixed-methods"]
  const UnusualTypePrefix := "Unusual methodology type: "

  /** The type check: `.lower()` raises on a non-string, an unknown type warns. */
  function MethodologyTypeWarnings(output: Fields): (r: Result<seq<string>, PyError>)
    ensures !HasKey(output, "methodology_type") ==> r == Success([])
    ensures HasKey(output, "methodology_type") && !Field(output, "methodology_type").JStr? ==>
      r.Failure? && r.error.AttributeError?
    ensures HasKey(output, "methodology_type") && Field(output, "methodology_type").JStr? ==>
      var t := Field(output, "methodology_type").s;
      r == Success(if Lower(t) in MethodologyTypes then [] else [UnusualTypePrefix + t])
  {
    if !HasKey(output, "methodology_type") then Success([])
    else
      var t := Field(output, "methodology_type");
      if !t.JStr? then Failure(AttributeError("'" + TypeName(t) + "' object has no attribute 'lower'"))
      else if Lower(t.s) in MethodologyTypes then Success([])
      else Success([UnusualTypePrefix + t.s])
  }

  /** `validate_methodology(output)`. */
  function MethodologyReport(output: Fields): Result<Report, PyError> {
    var w :- MethodologyTypeWarnings(output);
    Success(MakeReport(MissingIssues(MethodologyRequired, output), w))
  }

  method ValidateMethodology(output: Fields) returns (r: Result<Report, PyError>)
    ensures r == MethodologyReport(output)
  {
    var issues := CheckRequired(MethodologyRequired, output);
    var w := MethodologyTypeWarnings(output);
    if w.Failure? {
      return Failure(w.error);
    }
    return Success(MakeReport(issues, w.value));
  }

  /**
   * A methodology passes exactly when its four fields are present; the type
   * is matched case-insensitively and an unusual one only warns.
   */
  lemma MethodologyValidity(output: Fields)
    requires MethodologyReport(output).Success?
    ensures MethodologyReport(output).value.valid <==>
      forall i :: 0 <= i < |MethodologyRequired| ==> HasKey(output, MethodologyRequired[i])
    ensures MethodologyReport(output).value.warnings == [] <==>
      !HasKey(output, "methodology_type") || Lower(Field(output, "methodology_type").s) in MethodologyTypes
  {
    MissingIssuesEmpty(MethodologyRequired, output);
  }

  /** "Mixed-Methods" is recognised whatever its capitalisation. */
  lemma MixedMethodsAnyCase(output: Fields)
    requires HasKey(output, "methodology_type") && Field(output, "methodology_type") == JStr("Mixed-Methods")
    ensures MethodologyReport(output).Success? && MethodologyReport(output).value.warnings == []
  {
    assert Lower("Mixed-Methods") == "mixed-methods";
  }

  // ---------------------------------------------------------------------------
  // Data collection
  // ---------------------------------------------------------------------------

  const DataCollectionRequired := ["collection_techniques", "recommended_tools", "estimated_sample_size", "timeline_breakdown"]
  const NoTools := "No tools recommended"
  const SmallSamplePrefix := "Very small sample size: "

  function ToolsWarnings(output: Fields): (r: Result<seq<string>, PyError>)
    ensures !HasKey(output, "recommended_tools") ==> r == Success([])
    ensures r.Failure? <==> HasKey(output, "recommended_tools") && PyLen(Field(output, "recommended_tools")).Failure?
    ensures r.Success? && HasKey(output, "recommended_tools") ==>
      (r.value == [NoTools] <==> !Truthy(Field(output, "recommended_tools")))
    ensures r.Success? ==> r.value == [] || r.value == [NoTools]
  {
    if !HasKey(output, "recommended_tools") then Success([])
    else
      var n :- PyLen(Field(output, "recommended_tools"));
      Success(if n == 0 then [NoTools] else [])
  }

  /**
   * The sample-size check: `int(...)` under a handler for `ValueError` and
   * `TypeError`. On every value a `Json` can hold those are the only
   * exceptions it raises, so here the check never raises; the non-finite
   * float `Infinity`, on which `int` raises an uncaught `OverflowError`, is
   * not a `Json` value.
   */
  function SampleWarnings(output: Fields): (r: seq<string>)
    ensures |r| <= 1
    ensures r != [] <==> (HasKey(output, "estimated_sample_size") &&
                          PyInt(Field(output, "estimated_sample_size")).Success? &&
                          PyInt(Field(output, "estimated_sample_size")).value < 10)
    ensures r != [] ==> r[0] == SmallSamplePrefix + IntToString(PyInt(Field(output, "estimated_sample_size")).value)
  {
    if !HasKey(output, "estimated_sample_size") then []
    else
      match PyInt(Field(output, "estimated_sample_size"))
      case Success(size) => if size < 10 then [SmallSamplePrefix + IntToString(size)] else []
      case Failure(_) => []
  }

  /** `validate_data_collection(output)`. */
  function DataCollectionReport(output: Fields): Result<Report, PyError> {
    var w :- ToolsWarnings(output);
    Success(MakeReport(MissingIssues(DataCollectionRequired, output), w + SampleWarnings(output)))
  }

  method ValidateDataCollection(output: Fields) returns (r: Result<Report, PyError>)
    ensures r == DataCollectionReport(output)
  {
    var issues := CheckRequired(DataCollectionRequired, output);
    var w := ToolsWarnings(output);
    if w.Failure? {
      return Failure(w.error);
    }
    return Success(MakeReport(issues, w.value + SampleWarnings(output)));
  }

  /**
   * A data-collection plan passes exactly when its four fields are present;
   * a sample size that is not an integer is passed over in silence.
   */
  lemma DataCollectionValidity(output: Fields)
    requires DataCollectionReport(output).Success?
    ensures DataCollectionReport(output).value.valid <==>
      forall i :: 0 <= i < |DataCollectionRequired| ==> HasKey(output, DataCollectionRequired[i])
  {
    MissingIssuesEmpty(DataCollectionRequired, output);
  }

  /** A sample size that does not parse as an integer adds no warning of its own. */
  lemma UnparsableSampleIgnored(output: Fields)
    requires HasKey(output, "estimated_sample_size") && PyInt(Field(output, "estimated_sample_size")).Failure?
    requires DataCollectionReport(output).Success?
    ensures DataCollectionReport(output).value.warnings == ToolsWarnings(output).value
    ensures forall k :: 0 <= k < |DataCollectionReport(output).value.warnings| ==>
      DataCollectionReport(output).value.warnings[k] == NoTools
  {
    NoSampleWarning(output);
    DataCollectionWarnings(output);
    OnlyToolsWarning(ToolsWarnings(output).value, SampleWarnings(output), DataCollectionReport(output).value.warnings);
  }

  lemma OnlyToolsWarning(tools: seq<string>, sample: seq<string>, warnings: seq<string>)
    requires warnings == tools + sample && sample == [] && (tools == [] || tools == [NoTools])
    ensures warnings == tools && forall k :: 0 <= k < |warnings| ==> warnings[k] == NoTools
  {
    assert tools + [] == tools;
  }

  lemma DataCollectionWarnings(output: Fields)
    requires DataCollectionReport(output).Success?
    ensures DataCollectionReport(output).value.warnings == ToolsWarnings(output).value + SampleWarnings(output)
  {
  }

  lemma NoSampleWarning(output: Fields)
    requires HasKey(output, "estimated_sample_size") && PyInt(Field(output, "estimated_sample_size")).Failure?
    ensures SampleWarnings(output) == []
  {
  }

  /** A sample size that starts with a letter, such as "about fifty", does not parse as an integer. */
  lemma SampleInWordsUnparsable(words: string)
    requires IsStripped(words) && words != [] && 'a' <= words[0] <= 'z'
    ensures PyInt(JStr(words)).Failure?
  {
    StripOfStripped(words);
    assert !IsDigit(words[0]);
  }

  // ---------------------------------------------------------------------------
  // Quality control
  // ---------------------------------------------------------------------------

  const QualityRequired := ["validation_passed", "coherence_score", "feasibility_score",
                            "issues_identified", "recommendations", "requires_refinement", "overall_quality_score"]

  /** A score is a number (a boolean counts) within `[0, high]`. */
  predicate ScoreInRange(score: Json, high: int) {
    IsNumber(score) && 0.0 <= NumberValue(score) <= high as real
  }

  /** A score field that is present and in range. */
  predicate ScoreOk(output: Fields, k: string, high: int) {
    HasKey(output, k) && ScoreInRange(Field(output, k), high)
  }

  /**
   * The check on one score field: not numeric, or out of range, is an issue.
   * Scores are finite here; a NaN score, which no comparison in the source
   * flags, is not a `Json` value.
   */
  function ScoreIssues(output: Fields, k: string, what: string, high: int): (r: seq<string>)
    ensures |r| <= 1
    ensures r == [] <==> !HasKey(output, k) || ScoreInRange(Field(output, k), high)
  {
    if !HasKey(output, k) then []
    else
      var score := Field(output, k);
      if !IsNumber(score) then [what + " score should be numeric, got: <class '" + TypeName(score) + "'>"]
      else if NumberValue(score) < 0.0 || NumberValue(score) > high as real then
        [what + " score out of range (0-" + IntToString(high) + "): " + Show(score)]
      else []
  }

  /** `validate_quality_control(output)`: it never raises and never warns. */
  function QualityReport(output: Fields): (r: Report)
    ensures r.warnings == []
  {
    MakeReport(MissingIssues(QualityRequired, output)
               + ScoreIssues(output, "coherence_score", "Coherence", 1)
               + ScoreIssues(output, "feasibility_score", "Feasibility", 1)
               + ScoreIssues(output, "overall_quality_score", "Overall quality", 100), [])
  }

  method ValidateQualityControl(output: Fields) returns (r: Report)
    ensures r == QualityReport(output)
  {
    var issues := CheckRequired(QualityRequired, output);
    issues := issues + ScoreIssues(output, "coherence_score", "Coherence", 1);
    issues := issues + ScoreIssues(output, "feasibility_score", "Feasibility", 1);
    issues := issues + ScoreIssues(output, "overall_quality_score", "Overall quality", 100);
    return MakeReport(issues, []);
  }

  /**
   * A quality validation passes exactly when its seven fields are present,
   * coherence and feasibility lie in [0, 1] and the overall score in [0, 100].
   */
  lemma QualityValidity(output: Fields)
    ensures QualityReport(output).valid <==>
      && (forall i :: 0 <= i < |QualityRequired| ==> HasKey(output, QualityRequired[i]))
      && ScoreOk(output, "coherence_score", 1)
      && ScoreOk(output, "feasibility_score", 1)
      && ScoreOk(output, "overall_quality_score", 100)
  {
    MissingIssuesEmpty(QualityRequired, output);
    if forall i :: 0 <= i < |QualityRequired| ==> HasKey(output, QualityRequired[i]) {
      assert HasKey(output, QualityRequired[1]) && HasKey(output, QualityRequired[2]) && HasKey(output, QualityRequired[6]);
    }
  }

  // ---------------------------------------------------------------------------
  // Code-fence cleaning
  // ---------------------------------------------------------------------------

  const JsonFence := "```json"
  const Fence := "```"

  /** Drops one opening "```json", or else one opening "```". */
  function DropOpening(t: string): (r: string)
    ensures StartsWith(t, JsonFence) ==> r == t[|JsonFence|..]
    ensures !StartsWith(t, Fence) ==> r == t
  {
    if StartsWith(t, JsonFence) then t[|JsonFence|..]
    else if StartsWith(t, Fence) then t[|Fence|..]
    else t
  }

  /** Drops one closing "```". */
  function DropClosing(t: string): (r: string)
    ensures EndsWith(t, Fence) ==> r == t[..|t| - |Fence|]
    ensures !EndsWith(t, Fence) ==> r == t
  {
    if EndsWith(t, Fence) then t[..|t| - |Fence|] else t
  }

  /** `_clean_json_response(text)`: strip, drop one opening fence and one closing fence, strip again. */
  function CleanJsonResponse(text: string): (r: string)
    ensures IsStripped(r)
    ensures |r| <= |text|
  {
    Strip(DropClosing(DropOpening(Strip(text))))
  }

  /** A fenced JSON block, with any whitespace around and inside the fences, cleans to its body. */
  lemma CleanJsonFenced(w1: string, w2: string, body: string, w3: string, w4: string)
    requires AllSpace(w1) && AllSpace(w2) && AllSpace(w3) && AllSpace(w4) && IsStripped(body)
    ensures CleanJsonResponse(w1 + JsonFence + w2 + body + w3 + Fence + w4) == body
  {
    var closed := w2 + body + w3;
    var inner := JsonFence + (closed + Fence);
    assert w1 + JsonFence + w2 + body + w3 + Fence + w4 == w1 + inner + w4;
    assert inner[0] == '`' && inner[|inner| - 1] == '`';
    StripPadded(w1, inner, w4);
    DropJsonFence(closed + Fence);
    DropClosingFence(closed);
    StripPadded(w2, body, w3);
  }

  lemma DropJsonFence(x: string)
    ensures DropOpening(JsonFence + x) == x
  {
    assert (JsonFence + x)[..|JsonFence|] == JsonFence;
    assert (JsonFence + x)[|JsonFence|..] == x;
  }

  lemma DropBareFence(x: string)
    requires x != [] && x[0] != 'j'
    ensures DropOpening(Fence + x) == x
  {
    var t := Fence + x;
    assert t[3] == x[0];
    assert !StartsWith(t, JsonFence);
    assert t[..|Fence|] == Fence;
    assert t[|Fence|..] == x;
  }

  lemma DropClosingFence(x: string)
    ensures DropClosing(x + Fence) == x
  {
    var t := x + Fence;
    assert t[|t| - |Fence|..] == Fence;
    assert t[..|t| - |Fence|] == x;
  }

  /** A bare fence is removed just the same when the body does not begin with "j". */
  lemma CleanBareFenced(body: string)
    requires IsStripped(body) && |body| >= 1 && body[0] != 'j'
    ensures CleanJsonResponse(Fence + body + Fence) == body
  {
    Regroup(Fence, body, Fence);
    CleanFenceAround(body);
  }

  lemma Regroup(a: string, b: string, c: string)
    ensures a + b + c == a + (b + c)
  {
  }

  lemma CleanFenceAround(body: string)
    requires IsStripped(body) && |body| >= 1 && body[0] != 'j'
    ensures CleanJsonResponse(Fence + (body + Fence)) == body
  {
    var inner := Fence + (body + Fence);
    assert inner[0] == '`' && inner[|inner| - 1] == '`';
    var unfenced := body + Fence;
    assert unfenced[0] == body[0];
    DropBareFence(unfenced);
    DropClosingFence(body);
    CleanSteps(inner, unfenced, body);
  }

  /** Cleaning already stripped text is dropping the fences, when that leaves stripped text. */
  lemma CleanSteps(text: string, unfenced: string, body: string)
    requires IsStripped(text) && DropOpening(text) == unfenced && DropClosing(unfenced) == body && IsStripped(body)
    ensures CleanJsonResponse(text) == body
  {
    StripOfStripped(text);
    StripOfStripped(body);
  }

  /** Text without fences only loses its surrounding whitespace. */
  lemma CleanUnfenced(text: string)
    requires !StartsWith(Strip(text), Fence) && !EndsWith(Strip(text), Fence)
    ensures CleanJsonResponse(text) == Strip(text)
  {
    JsonFenceIsFence(Strip(text));
    StripOfStripped(Strip(text));
  }

  lemma JsonFenceIsFence(t: string)
    ensures StartsWith(t, JsonFence) ==> StartsWith(t, Fence)
  {
    if StartsWith(t, JsonFence) {
      assert t[..|Fence|] == t[..|JsonFence|][..|Fence|];
    }
  }

  // ---------------------------------------------------------------------------
  // Report rendering
  // ---------------------------------------------------------------------------

  /** An entry of the run's error list. */
  datatype RunError = RunError(typeName: string, message: string)

  /** The evaluation result a report is rendered from: validations in insertion order. */
  datatype EvaluationResult = EvaluationResult(
    scenarioName: string,
    timestamp: string,
    validations: seq<(string, Report)>,
    errors: seq<RunError>)

  const Rule := "================================================================================"
  const Passed := "  \U{2705} PASSED"
  const Failed := "  \U{274C} FAILED"
  const WarningsHeader := "  \U{26A0}\U{FE0F}  Warnings:"
  const ErrorsHeader := "ERRORS:"

  /** The number of validations that passed. */
  function PassedCount(vs: seq<(string, Report)>): (r: nat)
    ensures r <= |vs|
    ensures r == |vs| <==> forall i :: 0 <= i < |vs| ==> vs[i].1.valid
    ensures r == 0 <==> forall i :: 0 <= i < |vs| ==> !vs[i].1.valid
  {
    if vs == [] then 0
    else
      var init := vs[..|vs| - 1];
      assert forall i :: 0 <= i < |init| ==> init[i] == vs[i];
      PassedCount(init) + if vs[|vs| - 1].1.valid then 1 else 0
  }

  function SummaryLine(passed: nat, total: nat): string {
    "  Validations: " + IntToString(passed) + "/" + IntToString(total) + " passed"
  }

  /** An agent name as a heading: upper case, underscores as spaces. */
  function Heading(name: string): string {
    ReplaceAll(Upper(name), "_", " ") + ":"
  }

  function Bullet(item: string): string {
    "    - " + item
  }

  function Bullets(items: seq<string>): (r: seq<string>)
    ensures |r| == |items|
    ensures forall k :: 0 <= k < |items| ==> r[k] == Bullet(items[k])
  {
    seq(|items|, k requires 0 <= k < |items| => Bullet(items[k]))
  }

  function ErrorLine(e: RunError): string {
    "  - " + e.typeName + ": " + e.message
  }

  /** The verdict line, followed by the issues when the validation failed. */
  function VerdictLines(v: Report): seq<string> {
    if v.valid then [Passed] else [Failed] + Bullets(v.issues)
  }

  /** The warnings block, present only when there are warnings. */
  function WarningLines(v: Report): seq<string> {
    if v.warnings != [] then [WarningsHeader] + Bullets(v.warnings) else []
  }

  /** The lines of one validation's section. */
  function SectionLines(name: string, v: Report): seq<string> {
    [Heading(name)] + VerdictLines(v) + WarningLines(v) + [""]
  }

  /** A section names its validation, says whether it passed, and itemises its issues and warnings. */
  lemma SectionListsEverything(name: string, v: Report)
    ensures Heading(name) in SectionLines(name, v)
    ensures v.valid ==> Passed in SectionLines(name, v)
    ensures !v.valid ==> Failed in SectionLines(name, v)
    ensures !v.valid ==> forall k :: 0 <= k < |v.issues| ==> Bullet(v.issues[k]) in SectionLines(name, v)
    ensures forall k :: 0 <= k < |v.warnings| ==> Bullet(v.warnings[k]) in SectionLines(name, v)
  {
    var s := SectionLines(name, v);
    PartsIn([Heading(name)], VerdictLines(v), WarningLines(v), s);
    if !v.valid {
      HeadedBulletsIn(Failed, v.issues);
    }
    if v.warnings != [] {
      HeadedBulletsIn(WarningsHeader, v.warnings);
    }
  }

  lemma PartsIn(head: seq<string>, verdict: seq<string>, warned: seq<string>, s: seq<string>)
    requires s == head + verdict + warned + [""]
    ensures forall x :: x in head ==> x in s
    ensures forall x :: x in verdict ==> x in s
    ensures forall x :: x in warned ==> x in s
  {
  }

  lemma HeadedBulletsIn(header: string, items: seq<string>)
    ensures header in [header] + Bullets(items)
    ensures forall k :: 0 <= k < |items| ==> Bullet(items[k]) in [header] + Bullets(items)
  {
    var b := [header] + Bullets(items);
    forall k | 0 <= k < |items|
      ensures Bullet(items[k]) in b
    {
      assert b[1 + k] == Bullet(items[k]);
    }
  }

  function SectionsLines(vs: seq<(string, Report)>): seq<string> {
    if vs == [] then [] else SectionsLines(vs[..|vs| - 1]) + SectionLines(vs[|vs| - 1].0, vs[|vs| - 1].1)
  }

  function ErrorLines(errors: seq<RunError>): (r: seq<string>)
    ensures errors == [] <==> r == []
    ensures forall k :: 0 <= k < |errors| ==> ErrorLine(errors[k]) in r
  {
    if errors == [] then [] else [ErrorsHeader] + EachErrorLine(errors)
  }

  function EachErrorLine(errors: seq<RunError>): (r: seq<string>)
    ensures |r| == |errors|
    ensures forall k :: 0 <= k < |errors| ==> r[k] == ErrorLine(errors[k])
  {
    seq(|errors|, k requires 0 <= k < |errors| => ErrorLine(errors[k]))
  }

  function HeaderLines(result: EvaluationResult): (r: seq<string>)
    ensures |r| == 7
  {
    [Rule,
     "EVALUATION REPORT: " + result.scenarioName,
     Rule,
     "Timestamp: " + result.timestamp + "\n",
     "SUMMARY:",
     SummaryLine(PassedCount(result.validations), |result.validations|),
     "  Errors: " + IntToString(|result.errors|) + "\n"]
  }

  /** The lines `generate_report` collects before joining them. */
  function ReportLines(result: EvaluationResult): seq<string> {
    HeaderLines(result) + SectionsLines(result.validations) + ErrorLines(result.errors)
  }

  /** The pass count per validation, the `sum(...)` generator. */
  method CountPassed(vs: seq<(string, Report)>) returns (passed: nat)
    ensures passed == PassedCount(vs)
  {
    passed := 0;
    var i := 0;
    while i < |vs|
      invariant 0 <= i <= |vs|
      invariant passed == PassedCount(vs[..i])
    {
      assert vs[..i + 1][..i] == vs[..i];
      if vs[i].1.valid {
        passed := passed + 1;
      }
      i := i + 1;
    }
    assert vs[..i] == vs;
  }

  /** Appends one bullet line per item. */
  method AppendBullets(lines: seq<string>, items: seq<string>) returns (r: seq<string>)
    ensures r == lines + Bullets(items)
  {
    r := lines;
    var k := 0;
    while k < |items|
      invariant 0 <= k <= |items|
      invariant r == lines + Bullets(items[..k])
    {
      assert Bullets(items[..k + 1]) == Bullets(items[..k]) + [Bullet(items[k])];
      r := r + [Bullet(items[k])];
      k := k + 1;
    }
    assert items[..k] == items;
  }

  /** The lines of one pass of the agent-by-agent loop. */
  method AppendSection(lines: seq<string>, name: string, v: Report) returns (r: seq<string>)
    ensures r == lines + SectionLines(name, v)
  {
    r := lines + [Heading(name)];
    ghost var head := r;
    if v.valid {
      r := r + [Passed];
    } else {
      r := r + [Failed];
      r := AppendBullets(r, v.issues);
      Associates(head, [Failed], Bullets(v.issues));
    }
    assert r == head + VerdictLines(v);
    ghost var verdict := r;
    if v.warnings != [] {
      r := r + [WarningsHeader];
      r := AppendBullets(r, v.warnings);
      Associates(verdict, [WarningsHeader], Bullets(v.warnings));
    }
    assert r == verdict + WarningLines(v);
    r := r + [""];
    SectionAssociates(lines, [Heading(name)], VerdictLines(v), WarningLines(v));
  }

  lemma Associates(a: seq<string>, b: seq<string>, c: seq<string>)
    ensures a + b + c == a + (b + c)
  {
  }

  lemma SectionAssociates(lines: seq<string>, a: seq<string>, b: seq<string>, c: seq<string>)
    ensures lines + a + b + c + [""] == lines + (a + b + c + [""])
  {
  }

  /** The error block: a header and one line per error, when there are errors. */
  method AppendErrors(lines: seq<string>, errors: seq<RunError>) returns (r: seq<string>)
    ensures r == lines + ErrorLines(errors)
  {
    r := lines;
    if errors != [] {
      r := r + [ErrorsHeader];
      ghost var head := r;
      var j := 0;
      while j < |errors|
        invariant 0 <= j <= |errors|
        invariant r == head + EachErrorLine(errors[..j])
      {
        ErrorLinesSnoc(head, errors, j);
        r := r + [ErrorLine(errors[j])];
        j := j + 1;
      }
      assert errors[..j] == errors;
      Associates(lines, [ErrorsHeader], EachErrorLine(errors));
    }
  }

  lemma ErrorLinesSnoc(lines: seq<string>, errors: seq<RunError>, j: nat)
    requires j < |errors|
    ensures lines + EachErrorLine(errors[..j]) + [ErrorLine(errors[j])] == lines + EachErrorLine(errors[..j + 1])
  {
    assert EachErrorLine(errors[..j + 1]) == EachErrorLine(errors[..j]) + [ErrorLine(errors[j])];
  }

  /** The agent-by-agent loop. */
  method AppendSections(lines: seq<string>, vs: seq<(string, Report)>) returns (r: seq<string>)
    ensures r == lines + SectionsLines(vs)
  {
    r := lines;
    var i := 0;
    while i < |vs|
      invariant 0 <= i <= |vs|
      invariant r == lines + SectionsLines(vs[..i])
    {
      r := AppendSection(r, vs[i].0, vs[i].1);
      SectionsLinesSnoc(lines, vs, i);
      i := i + 1;
    }
    assert vs[..i] == vs;
  }

  lemma SectionsLinesSnoc(lines: seq<string>, vs: seq<(string, Report)>, i: nat)
    requires i < |vs|
    ensures lines + SectionsLines(vs[..i]) + SectionLines(vs[i].0, vs[i].1) == lines + SectionsLines(vs[..i + 1])
  {
    assert vs[..i + 1][..i] == vs[..i];
    assert SectionsLines(vs[..i + 1]) == SectionsLines(vs[..i]) + SectionLines(vs[i].0, vs[i].1);
  }

  /** `generate_report(result)`. */
  method GenerateReport(result: EvaluationResult) returns (text: string)
    ensures text == Join("\n", ReportLines(result))
  {
    var passed := CountPassed(result.validations);
    var lines := [Rule, "EVALUATION REPORT: " + result.scenarioName, Rule, "Timestamp: " + result.timestamp + "\n",
                  "SUMMARY:", SummaryLine(passed, |result.validations|), "  Errors: " + IntToString(|result.errors|) + "\n"];
    assert lines == HeaderLines(result);
    lines := AppendSections(lines, result.validations);
    lines := AppendErrors(lines, result.errors);
    text := Join("\n", lines);
  }

  /** The sections hold each validation's heading, and the issues of each failed one. */
  lemma {:induction false} SectionsListEverything(vs: seq<(string, Report)>, i: nat)
    requires i < |vs|
    ensures Heading(vs[i].0) in SectionsLines(vs)
    ensures !vs[i].1.valid ==> (Failed in SectionsLines(vs) &&
      forall k :: 0 <= k < |vs[i].1.issues| ==> Bullet(vs[i].1.issues[k]) in SectionsLines(vs))
  {
    var init := vs[..|vs| - 1];
    var s := SectionLines(vs[|vs| - 1].0, vs[|vs| - 1].1);
    assert SectionsLines(vs) == SectionsLines(init) + s;
    if i < |vs| - 1 {
      assert vs[i] == init[i];
      SectionsListEverything(init, i);
    } else {
      SectionListsEverything(vs[i].0, vs[i].1);
    }
  }

  /** The header keeps its place at the top of the report; every line of the other parts is in it. */
  lemma ReportParts(h: seq<string>, s: seq<string>, e: seq<string>)
    requires |h| == 7
    ensures (h + s + e)[5] == h[5]
    ensures forall x :: x in s ==> x in h + s + e
    ensures forall x :: x in e ==> x in h + s + e
  {
  }

  /**
   * The report summarises p/t passed validations, names every validation,
   * marks and itemises every failed one, and lists every error.
   */
  lemma ReportContents(result: EvaluationResult)
    ensures ReportLines(result)[5] == SummaryLine(PassedCount(result.validations), |result.validations|)
    ensures forall i :: 0 <= i < |result.validations| ==> Heading(result.validations[i].0) in ReportLines(result)
    ensures forall i, k :: 0 <= i < |result.validations| && !result.validations[i].1.valid && 0 <= k < |result.validations[i].1.issues|
                           ==> Bullet(result.validations[i].1.issues[k]) in ReportLines(result)
    ensures forall k :: 0 <= k < |result.errors| ==> ErrorLine(result.errors[k]) in ReportLines(result)
    ensures result.errors != [] ==> ErrorsHeader in ReportLines(result)
  {
    var vs := result.validations;
    var h := HeaderLines(result);
    var s := SectionsLines(vs);
    var e := ErrorLines(result.errors);
    ReportParts(h, s, e);
    forall i | 0 <= i < |vs|
      ensures Heading(vs[i].0) in ReportLines(result)
      ensures !vs[i].1.valid ==> forall k :: 0 <= k < |vs[i].1.issues| ==> Bullet(vs[i].1.issues[k]) in ReportLines(result)
    {
      SectionsListEverything(vs, i);
    }
    if result.errors != [] {
      assert e[0] == ErrorsHeader;
    }
  }
}

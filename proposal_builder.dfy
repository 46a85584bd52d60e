/**
 * Assembling the stage outputs into one proposal dict, and rendering a
 * proposal dict as a Markdown draft.
 *
 * The renderer reads the dict the way the Python code does: a missing section
 * reads as `{}`, a missing scalar as "N/A", a missing list as `[]`; a section
 * that is present but is not a dict raises `AttributeError` on `.get`, and a
 * list field that is truthy but not iterable raises `TypeError`.
 */
module ProposalBuilder {
  import opened Wrappers
  import opened Text
  import opened Errors
  import opened JsonData
  import opened DataModels

  // ---------------------------------------------------------------------------
  // Assembly
  // ---------------------------------------------------------------------------

  const ProposalKeys := ["user_profile", "problem_definition", "research_objectives",
                         "methodology", "data_collection_plan", "quality_validation"]

  /** `x.model_dump() if x else None`; a model instance is always truthy. */
  function DumpOr<T>(x: Option<T>, dump: T -> Json): Json {
    if x.Some? then dump(x.value) else JNull
  }

  /** The proposal dict: each key bound to its component, in order. */
  function ProposalOf(components: seq<Json>): (r: Fields)
    requires |components| == |ProposalKeys|
  {
    [(ProposalKeys[0], components[0]), (ProposalKeys[1], components[1]), (ProposalKeys[2], components[2]),
     (ProposalKeys[3], components[3]), (ProposalKeys[4], components[4]), (ProposalKeys[5], components[5])]
  }

  /** `assemble_proposal(...)`: the six components under fixed keys, `None` for an absent one. */
  function AssembleProposal(
    profile: Option<UserProfile>,
    problem: Option<ProblemDefinition>,
    objectives: Option<ResearchObjectives>,
    methodology: Option<MethodologyRecommendation>,
    dataCollection: Option<DataCollectionPlan>,
    quality: Option<QualityValidation>): (r: Fields)
  {
    ProposalOf([DumpOr(profile, UserProfileJson),
                DumpOr(problem, ProblemDefinitionJson),
                DumpOr(objectives, ResearchObjectivesJson),
                DumpOr(methodology, MethodologyRecommendationJson),
                DumpOr(dataCollection, DataCollectionPlanJson),
                DumpOr(quality, QualityValidationJson)])
  }

  /** The six keys differ already in their first letter. */
  lemma ProposalKeysDistinct(components: seq<Json>)
    requires |components| == |ProposalKeys|
    ensures DistinctKeys(ProposalOf(components))
  {
    assert forall i :: 0 <= i < |ProposalKeys| ==> ProposalKeys[i] != [] && ProposalKeys[i][0] == "uprmdq"[i];
  }

  /** Every key of the proposal dict reads back its own component. */
  lemma ProposalReadsBack(components: seq<Json>, i: nat)
    requires |components| == |ProposalKeys| && i < |ProposalKeys|
    ensures Get(ProposalOf(components), ProposalKeys[i]) == Some(components[i])
  {
    ProposalKeysDistinct(components);
    GetDistinct(ProposalOf(components), i);
  }

  /** The renderer reads each section back from the proposal dict. */
  lemma ProposalSections(components: seq<Json>)
    requires |components| == |ProposalKeys|
    ensures Section(ProposalOf(components), "problem_definition") == components[1]
    ensures Section(ProposalOf(components), "research_objectives") == components[2]
    ensures Section(ProposalOf(components), "methodology") == components[3]
    ensures Section(ProposalOf(components), "data_collection_plan") == components[4]
    ensures Section(ProposalOf(components), "quality_validation") == components[5]
  {
    ProposalReadsBack(components, 1);
    ProposalReadsBack(components, 2);
    ProposalReadsBack(components, 3);
    ProposalReadsBack(components, 4);
    ProposalReadsBack(components, 5);
  }

  /** The proposal dict lists the six keys in order, and each reads back its component. */
  lemma ProposalShape(components: seq<Json>)
    requires |components| == |ProposalKeys|
    ensures Keys(ProposalOf(components)) == ProposalKeys
    ensures forall i :: 0 <= i < |ProposalKeys| ==> Get(ProposalOf(components), ProposalKeys[i]) == Some(components[i])
  {
    var r := ProposalOf(components);
    ProposalKeysDistinct(components);
    KeysInOrder(r);
    assert seq(|r|, i requires 0 <= i < |r| => r[i].0) == ProposalKeys;
    forall i | 0 <= i < |ProposalKeys|
      ensures Get(r, ProposalKeys[i]) == Some(components[i])
    {
      ProposalReadsBack(components, i);
    }
  }

  /**
   * The assembled proposal always has the same six keys, in order, and each
   * key holds its component's dump, or `None` when the component is absent.
   */
  lemma AssembledProposal(
    profile: Option<UserProfile>,
    problem: Option<ProblemDefinition>,
    objectives: Option<ResearchObjectives>,
    methodology: Option<MethodologyRecommendation>,
    dataCollection: Option<DataCollectionPlan>,
    quality: Option<QualityValidation>)
    ensures var r := AssembleProposal(profile, problem, objectives, methodology, dataCollection, quality);
      && Keys(r) == ProposalKeys
      && Get(r, "user_profile") == Some(DumpOr(profile, UserProfileJson))
      && Get(r, "problem_definition") == Some(DumpOr(problem, ProblemDefinitionJson))
      && Get(r, "research_objectives") == Some(DumpOr(objectives, ResearchObjectivesJson))
      && Get(r, "methodology") == Some(DumpOr(methodology, MethodologyRecommendationJson))
      && Get(r, "data_collection_plan") == Some(DumpOr(dataCollection, DataCollectionPlanJson))
      && Get(r, "quality_validation") == Some(DumpOr(quality, QualityValidationJson))
  {
    var components := [DumpOr(profile, UserProfileJson),
                       DumpOr(problem, ProblemDefinitionJson),
                       DumpOr(objectives, ResearchObjectivesJson),
                       DumpOr(methodology, MethodologyRecommendationJson),
                       DumpOr(dataCollection, DataCollectionPlanJson),
                       DumpOr(quality, QualityValidationJson)];
    ProposalShape(components);
    assert ProposalKeys[0] == "user_profile" && ProposalKeys[5] == "quality_validation";
  }

  /** With distinct keys, the keys are listed exactly as bound. */
  lemma {:induction false} KeysInOrder(fields: Fields)
    requires DistinctKeys(fields)
    ensures Keys(fields) == seq(|fields|, i requires 0 <= i < |fields| => fields[i].0)
  {
    if fields != [] {
      var init := fields[..|fields| - 1];
      assert DistinctKeys(init) by {
        assert forall i :: 0 <= i < |init| ==> init[i] == fields[i];
      }
      KeysInOrder(init);
      var last := fields[|fields| - 1].0;
      assert forall i :: 0 <= i < |init| ==> Keys(init)[i] == fields[i].0 != last;
    }
  }

  // ---------------------------------------------------------------------------
  // Markdown
  // ---------------------------------------------------------------------------

  const Title := "# Research Proposal Draft\n"
  const IntroductionHeader := "## 1. Introduction\n"
  const ObjectivesHeader := "## 2. Research Objectives\n"
  const MethodologyHeader := "## 3. Methodology\n"
  const DataCollectionHeader := "## 4. Data Collection Plan\n"
  const QualityHeader := "## 5. Quality Assessment\n"
  const NotAvailable := JStr("N/A")

  /** The dict behind `d.get(...)`: anything else raises `AttributeError` at the first `.get`. */
  function Gettable(d: Json): (r: Result<Fields, PyError>)
    ensures d.JObject? ==> r == Success(d.fields)
    ensures !d.JObject? ==> r.Failure? && r.error.AttributeError?
  {
    match d
    case JObject(fields) => Success(fields)
    case _ => Failure(AttributeError("'" + TypeName(d) + "' object has no attribute 'get'"))
  }

  /** `d.get(k, default)` on a dict. */
  function GetOr(fields: Fields, k: string, default: Json): Json {
    Get(fields, k).GetOr(default)
  }

  /** `proposal.get(key, {})`. */
  function Section(proposal: Fields, key: string): Json {
    Get(proposal, key).GetOr(JObject([]))
  }

  function Bullet(x: Json): (line: string)
    ensures StartsWith(line, "- ")
  {
    "- " + Show(x)
  }

  /** One "- item" line per item, in order. */
  function Bullets(items: seq<Json>): (lines: seq<string>)
    ensures |lines| == |items|
    ensures forall i :: 0 <= i < |items| ==> lines[i] == Bullet(items[i])
  {
    seq(|items|, i requires 0 <= i < |items| => Bullet(items[i]))
  }

  /** A labelled list: nothing when the value is falsy, else the heading, the bullets and a blank line. */
  function ListBlock(heading: string, v: Json): (r: Result<seq<string>, PyError>)
    ensures !Truthy(v) ==> r == Success([])
    ensures Truthy(v) && v.JArray? ==> r == Success([heading] + Bullets(v.items) + [""])
    ensures r.Failure? <==> Truthy(v) && Iterate(v).Failure?
  {
    if !Truthy(v) then Success([])
    else
      var items :- Iterate(v);
      Success([heading] + Bullets(items) + [""])
  }

  /** A line is the quality header only if it is that constant: every other line starts differently. */
  predicate NotQualityHeader(lines: seq<string>) {
    forall i :: 0 <= i < |lines| ==> lines[i] != QualityHeader
  }

  lemma BulletsNotHeader(items: seq<Json>)
    ensures NotQualityHeader(Bullets(items))
  {
    forall i | 0 <= i < |items|
      ensures Bullets(items)[i] != QualityHeader
    {
      assert Bullets(items)[i][0] == '-';
    }
  }

  lemma BlockNotHeader(heading: string, v: Json)
    requires heading != QualityHeader
    ensures ListBlock(heading, v).Success? ==> NotQualityHeader(ListBlock(heading, v).value)
  {
    if Truthy(v) && Iterate(v).Success? {
      var items := Iterate(v).value;
      ListBlockOf(heading, v, items);
      BulletsNotHeader(items);
      var bullets := Bullets(items);
      var r := [heading] + bullets + [""];
      forall i | 0 <= i < |r|
        ensures r[i] != QualityHeader
      {
        if 0 < i < |r| - 1 {
          assert r[i] == bullets[i - 1];
        }
      }
    }
  }

  function Labelled(heading: string, v: Json): (line: string)
    ensures line != QualityHeader
  {
    var line := "**" + heading + ":**\n" + Show(v) + "\n";
    assert line[0] == '*';
    line
  }

  /** "## 1. Introduction" and, for a truthy section, the statement, question and secondary questions. */
  function IntroductionLines(prob: Json): (r: Result<seq<string>, PyError>)
    ensures r.Success? ==> r.value != [] && r.value[0] == IntroductionHeader
  {
    if !Truthy(prob) then Success([IntroductionHeader])
    else
      var d :- Gettable(prob);
      var block :- ListBlock("**Secondary Questions:**", GetOr(d, "secondary_questions", JArray([])));
      Success([IntroductionHeader,
               Labelled("Problem Statement", GetOr(d, "problem_statement", NotAvailable)),
               Labelled("Main Research Question", GetOr(d, "main_research_question", NotAvailable))] + block)
  }

  /** "## 2. Research Objectives" and, for a truthy section, the general and specific objectives. */
  function ObjectivesLines(objs: Json): (r: Result<seq<string>, PyError>)
    ensures r.Success? ==> r.value != [] && r.value[0] == ObjectivesHeader
  {
    if !Truthy(objs) then Success([ObjectivesHeader])
    else
      var d :- Gettable(objs);
      var block :- ListBlock("**Specific Objectives:**", GetOr(d, "specific_objectives", JArray([])));
      Success([ObjectivesHeader, Labelled("General Objective", GetOr(d, "general_objective", NotAvailable))] + block)
  }

  function ApproachLine(methodology: Json, kind: Json): (line: string)
    ensures line != QualityHeader
  {
    "**Recommended Approach:** " + Show(methodology) + " (" + Show(kind) + ")\n"
  }

  /** "## 3. Methodology" and, for a truthy section, the approach, its type and the justification. */
  function MethodologyLines(meth: Json): (r: Result<seq<string>, PyError>)
    ensures r.Success? ==> r.value != [] && r.value[0] == MethodologyHeader
  {
    if !Truthy(meth) then Success([MethodologyHeader])
    else
      var d :- Gettable(meth);
      Success([MethodologyHeader,
               ApproachLine(GetOr(d, "recommended_methodology", NotAvailable), GetOr(d, "methodology_type", NotAvailable)),
               Labelled("Justification", GetOr(d, "justification", NotAvailable))])
  }

  function SampleLine(size: Json): (line: string)
    ensures line != QualityHeader
  {
    var line := "**Sample Size:** " + Show(size) + "\n";
    assert line[0] == '*';
    line
  }

  /** "## 4. Data Collection Plan" and, for a truthy section, techniques, sample size and resources. */
  function DataCollectionLines(data: Json): (r: Result<seq<string>, PyError>)
    ensures r.Success? ==> r.value != [] && r.value[0] == DataCollectionHeader
  {
    if !Truthy(data) then Success([DataCollectionHeader])
    else
      var d :- Gettable(data);
      var techniqueBlock :- ListBlock("**Techniques:**", GetOr(d, "collection_techniques", JArray([])));
      var resourceBlock :- ListBlock("**Resource Requirements:**", GetOr(d, "resource_requirements", JArray([])));
      Success([DataCollectionHeader] + techniqueBlock + [SampleLine(GetOr(d, "estimated_sample_size", NotAvailable))] + resourceBlock)
  }

  /** "- [severity] description" for one identified issue. */
  function IssueLine(issue: Json): (r: Result<string, PyError>)
    ensures r.Success? ==> StartsWith(r.value, "- [")
  {
    var d :- Gettable(issue);
    Success("- [" + Show(GetOr(d, "severity", JStr("UNKNOWN"))) + "] " + Show(GetOr(d, "description", JStr(""))))
  }

  /** The issue lines in order, or the first issue's error. */
  function IssueLines(issues: seq<Json>): (r: Result<seq<string>, PyError>)
    ensures r.Success? ==> |r.value| == |issues|
  {
    if issues == [] then Success([])
    else
      var init :- IssueLines(issues[..|issues| - 1]);
      var last :- IssueLine(issues[|issues| - 1]);
      Success(init + [last])
  }

  /** "## 5. Quality Assessment" with both scores and any identified issues, only for a truthy section. */
  function QualityLines(qc: Json): (r: Result<seq<string>, PyError>)
    ensures !Truthy(qc) ==> r == Success([])
    ensures Truthy(qc) && r.Success? ==> r.value != [] && r.value[0] == QualityHeader
  {
    if !Truthy(qc) then Success([])
    else
      var d :- Gettable(qc);
      var issues := GetOr(d, "issues_identified", JArray([]));
      var issueBlock :-
        if !Truthy(issues) then Success([])
        else
          var items :- Iterate(issues);
          var lines :- IssueLines(items);
          Success(["\n**Identified Issues:**"] + lines);
      Success([QualityHeader,
               "- **Coherence Score:** " + Show(GetOr(d, "coherence_score", NotAvailable)),
               "- **Feasibility Score:** " + Show(GetOr(d, "feasibility_score", NotAvailable))] + issueBlock)
  }

  /** The lines of the draft, section by section, or the first error raised. */
  function MarkdownLines(proposal: Fields): Result<seq<string>, PyError> {
    var intro :- IntroductionLines(Section(proposal, "problem_definition"));
    var objectives :- ObjectivesLines(Section(proposal, "research_objectives"));
    var methodology :- MethodologyLines(Section(proposal, "methodology"));
    var data :- DataCollectionLines(Section(proposal, "data_collection_plan"));
    var quality :- QualityLines(Section(proposal, "quality_validation"));
    Success([Title] + intro + objectives + methodology + data + quality)
  }

  /** What `to_markdown` returns or raises: the lines joined by newlines. */
  function Markdown(proposal: Fields): Result<string, PyError> {
    match MarkdownLines(proposal)
    case Success(lines) => Success(Join("\n", lines))
    case Failure(e) => Failure(e)
  }

  // ---------------------------------------------------------------------------
  // The renderer, line by line
  // ---------------------------------------------------------------------------

  /** The lines so far followed by a section's lines, or the section's error. */
  function Then(md: seq<string>, section: Result<seq<string>, PyError>): Result<seq<string>, PyError> {
    match section
    case Success(lines) => Success(md + lines)
    case Failure(e) => Failure(e)
  }

  /** `for x in items: md.append(f"- {x}")`. */
  method AppendBullets(md: seq<string>, items: seq<Json>) returns (out: seq<string>)
    ensures out == md + Bullets(items)
  {
    out := md;
    var i := 0;
    while i < |items|
      invariant 0 <= i <= |items|
      invariant out == md + Bullets(items[..i])
    {
      assert Bullets(items[..i + 1]) == Bullets(items[..i]) + [Bullet(items[i])];
      out := out + [Bullet(items[i])];
      i := i + 1;
    }
    assert items[..i] == items;
  }

  /** `if v: md.append(heading); for x in v: ...; md.append("")`. */
  method AppendListBlock(md: seq<string>, heading: string, v: Json) returns (r: Result<seq<string>, PyError>)
    ensures r == Then(md, ListBlock(heading, v))
  {
    if !Truthy(v) {
      assert md + [] == md;
      return Success(md);
    }
    var items := Iterate(v);
    if items.Failure? {
      return Failure(items.error);
    }
    var out := AppendBullets(md + [heading], items.value);
    ListBlockOf(heading, v, items.value);
    AppendAssociates(md, heading, Bullets(items.value));
    return Success(out + [""]);
  }

  lemma ListBlockOf(heading: string, v: Json, items: seq<Json>)
    requires Truthy(v) && Iterate(v) == Success(items)
    ensures ListBlock(heading, v) == Success([heading] + Bullets(items) + [""])
  {
  }

  lemma AppendAssociates(md: seq<string>, heading: string, lines: seq<string>)
    ensures md + [heading] + lines + [""] == md + ([heading] + lines + [""])
  {
  }


  method AppendIntroduction(md: seq<string>, prob: Json) returns (r: Result<seq<string>, PyError>)
    ensures r == Then(md, IntroductionLines(prob))
  {
    var out := md + [IntroductionHeader];
    if Truthy(prob) {
      var d := Gettable(prob);
      if d.Failure? {
        return Failure(d.error);
      }
      var opening := [IntroductionHeader,
                      Labelled("Problem Statement", GetOr(d.value, "problem_statement", NotAvailable)),
                      Labelled("Main Research Question", GetOr(d.value, "main_research_question", NotAvailable))];
      r := AppendListBlock(md + opening, "**Secondary Questions:**", GetOr(d.value, "secondary_questions", JArray([])));
      if r.Success? {
        var block := ListBlock("**Secondary Questions:**", GetOr(d.value, "secondary_questions", JArray([]))).value;
        assert r.value == md + (opening + block);
      }
    } else {
      r := Success(out);
    }
  }

  method AppendObjectives(md: seq<string>, objs: Json) returns (r: Result<seq<string>, PyError>)
    ensures r == Then(md, ObjectivesLines(objs))
  {
    var out := md + [ObjectivesHeader];
    if Truthy(objs) {
      var d := Gettable(objs);
      if d.Failure? {
        return Failure(d.error);
      }
      var opening := [ObjectivesHeader, Labelled("General Objective", GetOr(d.value, "general_objective", NotAvailable))];
      r := AppendListBlock(md + opening, "**Specific Objectives:**", GetOr(d.value, "specific_objectives", JArray([])));
      if r.Success? {
        var block := ListBlock("**Specific Objectives:**", GetOr(d.value, "specific_objectives", JArray([]))).value;
        assert r.value == md + (opening + block);
      }
    } else {
      r := Success(out);
    }
  }

  method AppendMethodology(md: seq<string>, meth: Json) returns (r: Result<seq<string>, PyError>)
    ensures r == Then(md, MethodologyLines(meth))
  {
    var out := md + [MethodologyHeader];
    if Truthy(meth) {
      var d := Gettable(meth);
      if d.Failure? {
        return Failure(d.error);
      }
      out := md + [MethodologyHeader,
                   ApproachLine(GetOr(d.value, "recommended_methodology", NotAvailable), GetOr(d.value, "methodology_type", NotAvailable)),
                   Labelled("Justification", GetOr(d.value, "justification", NotAvailable))];
    }
    r := Success(out);
  }

  method AppendDataCollection(md: seq<string>, data: Json) returns (r: Result<seq<string>, PyError>)
    ensures r == Then(md, DataCollectionLines(data))
  {
    var out := md + [DataCollectionHeader];
    if !Truthy(data) {
      return Success(out);
    }
    var d := Gettable(data);
    if d.Failure? {
      return Failure(d.error);
    }
    var withTechniques := AppendListBlock(out, "**Techniques:**", GetOr(d.value, "collection_techniques", JArray([])));
    if withTechniques.Failure? {
      return withTechniques;
    }
    var techniques := ListBlock("**Techniques:**", GetOr(d.value, "collection_techniques", JArray([]))).value;
    var sample := SampleLine(GetOr(d.value, "estimated_sample_size", NotAvailable));
    out := withTechniques.value + [sample];
    r := AppendListBlock(out, "**Resource Requirements:**", GetOr(d.value, "resource_requirements", JArray([])));
    if r.Success? {
      var resources := ListBlock("**Resource Requirements:**", GetOr(d.value, "resource_requirements", JArray([]))).value;
      Regroup(md, [DataCollectionHeader], techniques, [sample], resources);
    }
  }

  lemma Regroup(md: seq<string>, a: seq<string>, b: seq<string>, c: seq<string>, d: seq<string>)
    ensures md + a + b + c + d == md + (a + b + c + d)
  {
  }

  /** A failure among the first issues is the failure of the whole list. */
  lemma {:induction false} IssueFailureSticks(issues: seq<Json>, n: nat)
    requires n <= |issues|
    requires IssueLines(issues[..n]).Failure?
    ensures IssueLines(issues) == IssueLines(issues[..n])
    decreases |issues| - n
  {
    if n < |issues| {
      var longer := issues[..n + 1];
      assert longer[..n] == issues[..n];
      IssueFailureSticks(issues, n + 1);
    } else {
      assert issues[..n] == issues;
    }
  }

  /** `for i in issues: md.append(f"- [{...}] {...}")`. */
  method AppendIssues(md: seq<string>, issues: seq<Json>) returns (r: Result<seq<string>, PyError>)
    ensures r == Then(md, IssueLines(issues))
  {
    var out := md;
    var i := 0;
    while i < |issues|
      invariant 0 <= i <= |issues|
      invariant IssueLines(issues[..i]).Success? && out == md + IssueLines(issues[..i]).value
    {
      var line := IssueLine(issues[i]);
      assert issues[..i + 1][..i] == issues[..i];
      if line.Failure? {
        IssueFailureSticks(issues, i + 1);
        return Failure(line.error);
      }
      out := out + [line.value];
      i := i + 1;
    }
    assert issues[..i] == issues;
    r := Success(out);
  }

  method AppendQuality(md: seq<string>, qc: Json) returns (r: Result<seq<string>, PyError>)
    ensures r == Then(md, QualityLines(qc))
  {
    if !Truthy(qc) {
      assert md + [] == md;
      return Success(md);
    }
    var d := Gettable(qc);
    if d.Failure? {
      return Failure(d.error);
    }
    var opening := [QualityHeader,
                    "- **Coherence Score:** " + Show(GetOr(d.value, "coherence_score", NotAvailable)),
                    "- **Feasibility Score:** " + Show(GetOr(d.value, "feasibility_score", NotAvailable))];
    var out := md + opening;
    var issues := GetOr(d.value, "issues_identified", JArray([]));
    if !Truthy(issues) {
      assert out == md + (opening + []);
      return Success(out);
    }
    var items := Iterate(issues);
    if items.Failure? {
      return Failure(items.error);
    }
    r := AppendIssues(out + ["\n**Identified Issues:**"], items.value);
    if r.Success? {
      IssueBlockAssociates(md, opening, "\n**Identified Issues:**", IssueLines(items.value).value);
    }
  }

  lemma IssueBlockAssociates(md: seq<string>, opening: seq<string>, header: string, lines: seq<string>)
    ensures md + opening + [header] + lines == md + (opening + ([header] + lines))
  {
  }

  /** `to_markdown(proposal)`: the draft, or the error the rendering raises. */
  method ToMarkdown(proposal: Fields) returns (r: Result<string, PyError>)
    ensures r == Markdown(proposal)
  {
    var md := [Title];
    var step := AppendIntroduction(md, Section(proposal, "problem_definition"));
    if step.Failure? { return Failure(step.error); }
    step := AppendObjectives(step.value, Section(proposal, "research_objectives"));
    if step.Failure? { return Failure(step.error); }
    step := AppendMethodology(step.value, Section(proposal, "methodology"));
    if step.Failure? { return Failure(step.error); }
    step := AppendDataCollection(step.value, Section(proposal, "data_collection_plan"));
    if step.Failure? { return Failure(step.error); }
    step := AppendQuality(step.value, Section(proposal, "quality_validation"));
    if step.Failure? { return Failure(step.error); }
    r := Success(Join("\n", step.value));
  }

  // ---------------------------------------------------------------------------
  // What the draft always looks like
  // ---------------------------------------------------------------------------

  /** With every section rendered, the draft is the title and the sections in order. */
  lemma MarkdownOfSections(proposal: Fields, intro: seq<string>, objectives: seq<string>,
                           methodology: seq<string>, data: seq<string>, quality: seq<string>)
    requires IntroductionLines(Section(proposal, "problem_definition")) == Success(intro)
    requires ObjectivesLines(Section(proposal, "research_objectives")) == Success(objectives)
    requires MethodologyLines(Section(proposal, "methodology")) == Success(methodology)
    requires DataCollectionLines(Section(proposal, "data_collection_plan")) == Success(data)
    requires QualityLines(Section(proposal, "quality_validation")) == Success(quality)
    ensures MarkdownLines(proposal) == Success([Title] + intro + objectives + methodology + data + quality)
  {
  }

  /**
   * An empty proposal still renders the title and the four numbered section
   * headers, one per line: "# Research Proposal Draft", "## 1. Introduction",
   * ..., "## 4. Data Collection Plan", each followed by a blank line.
   */
  lemma EmptyProposalDraft()
    ensures Markdown([]) == Success(Title + "\n" + IntroductionHeader + "\n" + ObjectivesHeader + "\n" + MethodologyHeader + "\n" + DataCollectionHeader)
  {
    var lines := [Title, IntroductionHeader, ObjectivesHeader, MethodologyHeader, DataCollectionHeader];
    var empty := JObject([]);
    assert forall k :: Section([], k) == empty;
    assert !Truthy(empty);
    MarkdownOfSections([], [IntroductionHeader], [ObjectivesHeader], [MethodologyHeader], [DataCollectionHeader], []);
    assert [Title] + [IntroductionHeader] + [ObjectivesHeader] + [MethodologyHeader] + [DataCollectionHeader] + [] == lines;
    JoinOfFive("\n", Title, IntroductionHeader, ObjectivesHeader, MethodologyHeader, DataCollectionHeader);
  }

  lemma JoinOfFive(sep: string, a: string, b: string, c: string, d: string, e: string)
    ensures Join(sep, [a, b, c, d, e]) == a + sep + b + sep + c + sep + d + sep + e
  {
    assert [d, e][1..] == [e];
    assert Join(sep, [d, e]) == d + sep + e;
    assert [c, d, e][1..] == [d, e];
    assert Join(sep, [c, d, e]) == c + sep + (d + sep + e);
    assert [b, c, d, e][1..] == [c, d, e];
    assert Join(sep, [b, c, d, e]) == b + sep + (c + sep + (d + sep + e));
    assert [a, b, c, d, e][1..] == [b, c, d, e];
    assert Join(sep, [a, b, c, d, e]) == a + sep + (b + sep + (c + sep + (d + sep + e)));
  }

  /** A rendered draft is the title followed by the lines of each section in turn. */
  lemma MarkdownShape(proposal: Fields)
    requires MarkdownLines(proposal).Success?
    ensures IntroductionLines(Section(proposal, "problem_definition")).Success?
    ensures ObjectivesLines(Section(proposal, "research_objectives")).Success?
    ensures MethodologyLines(Section(proposal, "methodology")).Success?
    ensures DataCollectionLines(Section(proposal, "data_collection_plan")).Success?
    ensures QualityLines(Section(proposal, "quality_validation")).Success?
    ensures MarkdownLines(proposal).value ==
      [Title] + IntroductionLines(Section(proposal, "problem_definition")).value
      + ObjectivesLines(Section(proposal, "research_objectives")).value
      + MethodologyLines(Section(proposal, "methodology")).value
      + DataCollectionLines(Section(proposal, "data_collection_plan")).value
      + QualityLines(Section(proposal, "quality_validation")).value
  {
  }

  /** A rendered draft opens with the title and "## 1. Introduction", and headers 2 to 4 follow in order. */
  lemma SectionsInOrder(proposal: Fields)
    requires MarkdownLines(proposal).Success?
    ensures var lines := MarkdownLines(proposal).value;
      && |lines| >= 5 && lines[0] == Title && lines[1] == IntroductionHeader
      && exists a, b, c :: 1 < a < b < c < |lines| && lines[a] == ObjectivesHeader
           && lines[b] == MethodologyHeader && lines[c] == DataCollectionHeader
  {
    var intro := IntroductionLines(Section(proposal, "problem_definition")).value;
    var objectives := ObjectivesLines(Section(proposal, "research_objectives")).value;
    var methodology := MethodologyLines(Section(proposal, "methodology")).value;
    var data := DataCollectionLines(Section(proposal, "data_collection_plan")).value;
    var quality := QualityLines(Section(proposal, "quality_validation")).value;
    var lines := [Title] + intro + objectives + methodology + data + quality;
    MarkdownShape(proposal);
    var a := 1 + |intro|;
    var b := a + |objectives|;
    var c := b + |methodology|;
    assert lines[1] == intro[0];
    assert lines[a] == objectives[0];
    assert lines[b] == methodology[0];
    assert lines[c] == data[0];
  }

  lemma IntroductionAvoidsQuality(prob: Json)
    ensures IntroductionLines(prob).Success? ==> NotQualityHeader(IntroductionLines(prob).value)
  {
    if Truthy(prob) && prob.JObject? {
      BlockNotHeader("**Secondary Questions:**", GetOr(prob.fields, "secondary_questions", JArray([])));
    }
  }

  lemma ObjectivesAvoidQuality(objs: Json)
    ensures ObjectivesLines(objs).Success? ==> NotQualityHeader(ObjectivesLines(objs).value)
  {
    if Truthy(objs) && objs.JObject? {
      BlockNotHeader("**Specific Objectives:**", GetOr(objs.fields, "specific_objectives", JArray([])));
    }
  }

  lemma DataCollectionAvoidsQuality(data: Json)
    ensures DataCollectionLines(data).Success? ==> NotQualityHeader(DataCollectionLines(data).value)
  {
    if Truthy(data) && data.JObject? {
      BlockNotHeader("**Techniques:**", GetOr(data.fields, "collection_techniques", JArray([])));
      BlockNotHeader("**Resource Requirements:**", GetOr(data.fields, "resource_requirements", JArray([])));
    }
  }

  /**
   * "## 5. Quality Assessment" appears in a rendered draft exactly when the
   * proposal's quality section is truthy; sections 1 to 4 are always there.
   */
  lemma QualitySectionIff(proposal: Fields)
    requires MarkdownLines(proposal).Success?
    ensures QualityHeader in MarkdownLines(proposal).value <==> Truthy(Section(proposal, "quality_validation"))
  {
    var intro := IntroductionLines(Section(proposal, "problem_definition")).value;
    var objectives := ObjectivesLines(Section(proposal, "research_objectives")).value;
    var methodology := MethodologyLines(Section(proposal, "methodology")).value;
    var data := DataCollectionLines(Section(proposal, "data_collection_plan")).value;
    var quality := QualityLines(Section(proposal, "quality_validation")).value;
    MarkdownShape(proposal);
    IntroductionAvoidsQuality(Section(proposal, "problem_definition"));
    ObjectivesAvoidQuality(Section(proposal, "research_objectives"));
    MethodologyAvoidsQuality(Section(proposal, "methodology"));
    DataCollectionAvoidsQuality(Section(proposal, "data_collection_plan"));
    HeaderOnlyInQuality(intro, objectives, methodology, data, quality);
    if Truthy(Section(proposal, "quality_validation")) {
      assert quality[0] == QualityHeader;
    }
  }

  lemma MethodologyAvoidsQuality(meth: Json)
    ensures MethodologyLines(meth).Success? ==> NotQualityHeader(MethodologyLines(meth).value)
  {
  }

  /** Of the draft's parts, only the quality section can hold its header. */
  lemma HeaderOnlyInQuality(intro: seq<string>, objectives: seq<string>, methodology: seq<string>,
                            data: seq<string>, quality: seq<string>)
    requires NotQualityHeader(intro) && NotQualityHeader(objectives)
    requires NotQualityHeader(methodology) && NotQualityHeader(data)
    ensures QualityHeader in [Title] + intro + objectives + methodology + data + quality <==> QualityHeader in quality
  {
  }

  /** The introduction's lines come right after the title. */
  lemma IntroductionFollowsTitle(proposal: Fields, k: nat)
    requires MarkdownLines(proposal).Success?
    ensures IntroductionLines(Section(proposal, "problem_definition")).Success?
    ensures k < |IntroductionLines(Section(proposal, "problem_definition")).value| ==>
      1 + k < |MarkdownLines(proposal).value|
      && MarkdownLines(proposal).value[1 + k] == IntroductionLines(Section(proposal, "problem_definition")).value[k]
  {
    MarkdownShape(proposal);
    var intro := IntroductionLines(Section(proposal, "problem_definition")).value;
    if k < |intro| {
      var objectives := ObjectivesLines(Section(proposal, "research_objectives")).value;
      var methodology := MethodologyLines(Section(proposal, "methodology")).value;
      var data := DataCollectionLines(Section(proposal, "data_collection_plan")).value;
      var quality := QualityLines(Section(proposal, "quality_validation")).value;
      Regroup([Title] + intro, objectives, methodology, data, quality);
      HeadIndex(MarkdownLines(proposal).value, intro, objectives + methodology + data + quality, k);
    }
  }

  lemma HeadIndex(lines: seq<string>, intro: seq<string>, rest: seq<string>, k: nat)
    requires lines == [Title] + intro + rest && k < |intro|
    ensures 1 + k < |lines| && lines[1 + k] == intro[k]
  {
    assert lines[1 + k] == ([Title] + intro)[1 + k];
  }

  /** The introduction of a non-empty dict: statement, question, then the secondary-question block. */
  lemma IntroductionOfDict(problem: Fields)
    requires problem != []
    requires IntroductionLines(JObject(problem)).Success?
    ensures var intro := IntroductionLines(JObject(problem)).value;
      && |intro| >= 3
      && intro[1] == Labelled("Problem Statement", GetOr(problem, "problem_statement", NotAvailable))
      && intro[2] == Labelled("Main Research Question", GetOr(problem, "main_research_question", NotAvailable))
      && intro[3..] == ListBlock("**Secondary Questions:**", GetOr(problem, "secondary_questions", JArray([]))).value
  {
  }

  lemma IntroductionListsQuestions(problem: Fields, questions: seq<Json>)
    requires Get(problem, "secondary_questions") == Some(JArray(questions)) && questions != []
    ensures IntroductionLines(JObject(problem)).Success?
    ensures var intro := IntroductionLines(JObject(problem)).value;
      && |intro| == 5 + |questions|
      && intro[3] == "**Secondary Questions:**"
      && forall k :: 0 <= k < |questions| ==> intro[4 + k] == Bullet(questions[k])
  {
    SecondaryBlock(problem, questions);
    BlockAfterOpening(IntroductionLines(JObject(problem)).value, "**Secondary Questions:**", Bullets(questions));
  }

  /** With a non-empty list of secondary questions, the introduction succeeds and ends with their block. */
  lemma SecondaryBlock(problem: Fields, questions: seq<Json>)
    requires Get(problem, "secondary_questions") == Some(JArray(questions)) && questions != []
    ensures IntroductionLines(JObject(problem)).Success?
    ensures |IntroductionLines(JObject(problem)).value| >= 3
    ensures IntroductionLines(JObject(problem)).value[3..] == ["**Secondary Questions:**"] + Bullets(questions) + [""]
  {
    assert GetOr(problem, "secondary_questions", JArray([])) == JArray(questions);
    IntroductionOfDict(problem);
  }

  lemma BlockAfterOpening(lines: seq<string>, heading: string, bullets: seq<string>)
    requires |lines| >= 3 && lines[3..] == [heading] + bullets + [""]
    ensures |lines| == 5 + |bullets| && lines[3] == heading
    ensures forall k :: 0 <= k < |bullets| ==> lines[4 + k] == bullets[k]
  {
    forall k | 0 <= k < |bullets|
      ensures lines[4 + k] == bullets[k]
    {
      assert lines[4 + k] == lines[3..][1 + k];
    }
  }

  /** A non-empty list of secondary questions is rendered right after the statement and the question. */
  lemma SecondaryQuestionsListed(proposal: Fields, problem: Fields, questions: seq<Json>)
    requires Get(proposal, "problem_definition") == Some(JObject(problem))
    requires Get(problem, "secondary_questions") == Some(JArray(questions)) && questions != []
    requires MarkdownLines(proposal).Success?
    ensures var lines := MarkdownLines(proposal).value;
      && |lines| >= 5 + |questions|
      && lines[4] == "**Secondary Questions:**"
      && lines[5..5 + |questions|] == Bullets(questions)
  {
    assert Section(proposal, "problem_definition") == JObject(problem);
    MarkdownShape(proposal);
    SecondaryBlock(problem, questions);
    var intro := IntroductionLines(JObject(problem)).value;
    var objectives := ObjectivesLines(Section(proposal, "research_objectives")).value;
    var methodology := MethodologyLines(Section(proposal, "methodology")).value;
    var data := DataCollectionLines(Section(proposal, "data_collection_plan")).value;
    var quality := QualityLines(Section(proposal, "quality_validation")).value;
    Regroup([Title] + intro, objectives, methodology, data, quality);
    BlockInDraft(MarkdownLines(proposal).value, intro, objectives + methodology + data + quality,
                 "**Secondary Questions:**", Bullets(questions));
  }

  /** A block at line 3 of the introduction sits at line 4 of the draft. */
  lemma BlockInDraft(lines: seq<string>, intro: seq<string>, rest: seq<string>, heading: string, bullets: seq<string>)
    requires lines == [Title] + intro + rest
    requires |intro| >= 3 && intro[3..] == [heading] + bullets + [""]
    ensures |lines| >= 5 + |bullets| && lines[4] == heading && lines[5..5 + |bullets|] == bullets
  {
    assert lines[4] == intro[3];
    forall k | 0 <= k < |bullets|
      ensures lines[5 + k] == bullets[k]
    {
      assert lines[5 + k] == intro[4 + k] == intro[3..][1 + k];
    }
  }

  /** Line `k` of a non-empty introduction with secondary questions, read off the draft. */
  lemma IntroductionLine(proposal: Fields, problem: Fields, questions: seq<Json>, k: nat)
    requires Get(proposal, "problem_definition") == Some(JObject(problem))
    requires Get(problem, "secondary_questions") == Some(JArray(questions)) && questions != []
    requires MarkdownLines(proposal).Success?
    requires k < 5 + |questions|
    ensures 1 + k < |MarkdownLines(proposal).value|
    ensures k == 3 ==> MarkdownLines(proposal).value[1 + k] == "**Secondary Questions:**"
    ensures 4 <= k < 4 + |questions| ==> MarkdownLines(proposal).value[1 + k] == Bullet(questions[k - 4])
  {
    assert Section(proposal, "problem_definition") == JObject(problem);
    IntroductionListsQuestions(problem, questions);
    IntroductionFollowsTitle(proposal, k);
  }

  /** A problem definition without a statement renders "**Problem Statement:**", then "N/A", as the third line. */
  lemma MissingStatementReadsNA(proposal: Fields, problem: Fields)
    requires Get(proposal, "problem_definition") == Some(JObject(problem))
    requires problem != [] && Get(problem, "problem_statement").None?
    requires MarkdownLines(proposal).Success?
    ensures |MarkdownLines(proposal).value| > 2
    ensures MarkdownLines(proposal).value[2] == Labelled("Problem Statement", NotAvailable)
  {
    assert Section(proposal, "problem_definition") == JObject(problem);
    IntroductionFollowsTitle(proposal, 1);
    IntroductionOfDict(problem);
    assert GetOr(problem, "problem_statement", NotAvailable) == NotAvailable;
  }

  /** A truthy problem definition that is not a dict makes the rendering raise `AttributeError`. */
  lemma NonDictSectionFails(proposal: Fields)
    requires Truthy(Section(proposal, "problem_definition")) && !Section(proposal, "problem_definition").JObject?
    ensures MarkdownLines(proposal).Failure? && MarkdownLines(proposal).error.AttributeError?
  {
  }

  // ---------------------------------------------------------------------------
  // An assembled proposal always renders
  // ---------------------------------------------------------------------------

  /** Issues that are all dicts render one line each, without error. */
  lemma {:induction false} DictIssuesRender(issues: seq<Json>)
    requires forall i :: 0 <= i < |issues| ==> issues[i].JObject?
    ensures IssueLines(issues).Success?
  {
    if issues != [] {
      DictIssuesRender(issues[..|issues| - 1]);
    }
  }

  lemma ProblemDumpRenders(p: Option<ProblemDefinition>)
    ensures IntroductionLines(DumpOr(p, ProblemDefinitionJson)).Success?
  {
    if p.Some? {
      var f := ProblemDefinitionJson(p.value).fields;
      assert DistinctKeys(f);
      GetDistinct(f, 2);
    }
  }

  lemma ObjectivesDumpRenders(o: Option<ResearchObjectives>)
    ensures ObjectivesLines(DumpOr(o, ResearchObjectivesJson)).Success?
  {
    if o.Some? {
      var f := ResearchObjectivesJson(o.value).fields;
      assert DistinctKeys(f);
      GetDistinct(f, 1);
    }
  }

  lemma DataCollectionDumpRenders(d: Option<DataCollectionPlan>)
    ensures DataCollectionLines(DumpOr(d, DataCollectionPlanJson)).Success?
  {
    if d.Some? {
      var f := DataCollectionPlanJson(d.value).fields;
      assert DistinctKeys(f);
      GetDistinct(f, 0);
      GetDistinct(f, 5);
    }
  }

  lemma QualityDumpRenders(q: Option<QualityValidation>)
    ensures QualityLines(DumpOr(q, QualityValidationJson)).Success?
  {
    if q.Some? {
      var f := QualityValidationJson(q.value).fields;
      QualityValidationKeysDistinct(q.value);
      GetDistinct(f, 4);
      var issues := DictList(q.value.issuesIdentified);
      if Truthy(issues) {
        DictIssuesRender(issues.items);
      }
    }
  }

  /** Each rendered section of an assembled proposal renders on its own. */
  lemma DumpsRender(
    problem: Option<ProblemDefinition>,
    objectives: Option<ResearchObjectives>,
    methodology: Option<MethodologyRecommendation>,
    dataCollection: Option<DataCollectionPlan>,
    quality: Option<QualityValidation>)
    ensures IntroductionLines(DumpOr(problem, ProblemDefinitionJson)).Success?
    ensures ObjectivesLines(DumpOr(objectives, ResearchObjectivesJson)).Success?
    ensures MethodologyLines(DumpOr(methodology, MethodologyRecommendationJson)).Success?
    ensures DataCollectionLines(DumpOr(dataCollection, DataCollectionPlanJson)).Success?
    ensures QualityLines(DumpOr(quality, QualityValidationJson)).Success?
  {
    ProblemDumpRenders(problem);
    ObjectivesDumpRenders(objectives);
    DataCollectionDumpRenders(dataCollection);
    QualityDumpRenders(quality);
  }

  /** A proposal dict whose five rendered sections each render, renders. */
  lemma ProposalRenders(components: seq<Json>)
    requires |components| == |ProposalKeys|
    requires IntroductionLines(components[1]).Success?
    requires ObjectivesLines(components[2]).Success?
    requires MethodologyLines(components[3]).Success?
    requires DataCollectionLines(components[4]).Success?
    requires QualityLines(components[5]).Success?
    ensures Markdown(ProposalOf(components)).Success?
  {
    var r := ProposalOf(components);
    ProposalSections(components);
    MarkdownOfSections(r, IntroductionLines(components[1]).value, ObjectivesLines(components[2]).value,
                       MethodologyLines(components[3]).value, DataCollectionLines(components[4]).value,
                       QualityLines(components[5]).value);
  }

  /** `ProposalRenders` for the six components given one by one. */
  lemma ComponentsRender(profile: Json, problem: Json, objectives: Json, methodology: Json,
                         dataCollection: Json, quality: Json)
    requires IntroductionLines(problem).Success? && ObjectivesLines(objectives).Success?
    requires MethodologyLines(methodology).Success? && DataCollectionLines(dataCollection).Success?
    requires QualityLines(quality).Success?
    ensures Markdown(ProposalOf([profile, problem, objectives, methodology, dataCollection, quality])).Success?
  {
    ProposalRenders([profile, problem, objectives, methodology, dataCollection, quality]);
  }

  /**
   * `to_markdown(assemble_proposal(...))` never raises: every section of an
   * assembled proposal is either `None` or the dump of a validated model,
   * whose list fields are lists and whose issues are dicts.
   */
  lemma AssembledProposalRenders(
    profile: Option<UserProfile>,
    problem: Option<ProblemDefinition>,
    objectives: Option<ResearchObjectives>,
    methodology: Option<MethodologyRecommendation>,
    dataCollection: Option<DataCollectionPlan>,
    quality: Option<QualityValidation>)
    ensures Markdown(AssembleProposal(profile, problem, objectives, methodology, dataCollection, quality)).Success?
  {
    DumpsRender(problem, objectives, methodology, dataCollection, quality);
    ComponentsRender(DumpOr(profile, UserProfileJson),
                     DumpOr(problem, ProblemDefinitionJson),
                     DumpOr(objectives, ResearchObjectivesJson),
                     DumpOr(methodology, MethodologyRecommendationJson),
                     DumpOr(dataCollection, DataCollectionPlanJson),
                     DumpOr(quality, QualityValidationJson));
  }
}

/**
 * The academic search wrapper: building a site-restricted query, turning raw
 * search hits into structured results, ranking them by an abstract
 * relevance score, and formatting them as preliminary-literature entries.
 *
 * The relevance scorer and the clock are parameters: `scoreOf` stands for
 * `score_relevance` with its research area and keywords, `currentYear` for
 * the year read when the wrapper is created.
 */
module SearchWrapper {
  import opened Wrappers
  import opened Text

  const AcademicSources := ["arxiv.org", "scholar.google.com", "ieee.org", "acm.org", "springer.com",
                            "sciencedirect.com", "ncbi.nlm.nih.gov", "researchgate.net", "semanticscholar.org",
                            "jstor.org", "wiley.com", "nature.com", "science.org"]
  const Qualifiers := "research OR paper OR study"
  const KeywordLimit := 3
  const PreferredSources := 5

  /** A structured search hit. */
  datatype SearchResult = SearchResult(
    title: string,
    url: string,
    snippet: string,
    source: Option<string>,
    year: Option<int>,
    authors: Option<string>,
    relevanceScore: real)

  // ---------------------------------------------------------------------------
  // Query building
  // ---------------------------------------------------------------------------

  function SiteClause(src: string): string {
    "site:" + src
  }

  function SiteClauses(srcs: seq<string>): (r: seq<string>)
    ensures |r| == |srcs|
    ensures forall k :: 0 <= k < |srcs| ==> r[k] == SiteClause(srcs[k])
  {
    if srcs == [] then [] else [SiteClause(srcs[0])] + SiteClauses(srcs[1..])
  }

  /** `(site:a OR site:b ...)` over the first five academic sources. */
  function SourceClause(): (r: string)
    ensures forall k :: 0 <= k < PreferredSources ==> Contains(r, SiteClause(AcademicSources[k]))
  {
    var sites := SiteClauses(AcademicSources[..PreferredSources]);
    JoinContainsAll(" OR ", sites);
    var inner := Join(" OR ", sites);
    forall k | 0 <= k < PreferredSources
      ensures Contains("(" + inner + ")", SiteClause(AcademicSources[k]))
    {
      assert sites[k] == SiteClause(AcademicSources[k]);
      ContainsShift(inner, sites[k], "(", ")");
    }
    "(" + inner + ")"
  }

  /** `sub in a + s + b` follows from `sub in s`. */
  lemma ContainsShift(s: string, sub: string, a: string, b: string)
    requires Contains(s, sub)
    ensures Contains(a + s + b, sub)
  {
    ContainsWithin(s, sub, a, b);
  }

  lemma {:induction false} ContainsWithin(s: string, sub: string, a: string, b: string)
    requires Contains(s, sub)
    ensures Contains(a + s + b, sub)
    decreases |a|, |s|
  {
    if a != [] {
      assert (a + s + b)[1..] == a[1..] + s + b;
      ContainsWithin(s, sub, a[1..], b);
    } else if StartsWith(s, sub) {
      assert a + s + b == s + b;
      assert (s + b)[..|sub|] == s[..|sub|];
    } else {
      assert a + s + b == s + b;
      assert (s + b)[1..] == s[1..] + b;
      ContainsWithin(s[1..], sub, [], b);
      assert [] + s[1..] + b == s[1..] + b;
    }
  }

  /** Python truthiness of the optional keyword list and year. */
  predicate HasKeywords(keywords: Option<seq<string>>) {
    keywords.Some? && keywords.value != []
  }

  predicate HasYear(yearConstraint: Option<int>) {
    yearConstraint.Some? && yearConstraint.value != 0
  }

  /** `keywords[:3]`. */
  function FirstKeywords(keywords: seq<string>): (r: seq<string>)
    ensures |r| == if |keywords| < KeywordLimit then |keywords| else KeywordLimit
    ensures r == keywords[..|r|]
  {
    if |keywords| < KeywordLimit then keywords else keywords[..KeywordLimit]
  }

  /** The query parts, in the order they are appended. */
  function QueryParts(researchArea: string, fieldOfStudy: string, keywords: Option<seq<string>>, yearConstraint: Option<int>): (r: seq<string>)
    ensures |r| == 4 + (if HasKeywords(keywords) then 1 else 0) + (if HasYear(yearConstraint) then 1 else 0)
    ensures r[0] == "\"" + researchArea + "\"" && r[1] == fieldOfStudy && r[2] == Qualifiers
    ensures r[|r| - 1] == SourceClause()
    ensures HasKeywords(keywords) ==>
      r[3] == "(" + Join(" OR ", FirstKeywords(keywords.value)) + ")"
    ensures HasYear(yearConstraint) ==>
      r[|r| - 2] == "after:" + IntToString(yearConstraint.value - 1)
  {
    var base := ["\"" + researchArea + "\"", fieldOfStudy, Qualifiers];
    var withKeywords := if HasKeywords(keywords) then base + ["(" + Join(" OR ", FirstKeywords(keywords.value)) + ")"] else base;
    var withYear := if HasYear(yearConstraint) then withKeywords + ["after:" + IntToString(yearConstraint.value - 1)] else withKeywords;
    withYear + [SourceClause()]
  }

  /** `build_academic_query(...)`: the parts joined by single spaces. */
  function BuildAcademicQuery(researchArea: string, fieldOfStudy: string, keywords: Option<seq<string>>, yearConstraint: Option<int>): (r: string)
  {
    Join(" ", QueryParts(researchArea, fieldOfStudy, keywords, yearConstraint))
  }

  /**
   * The query opens with the quoted research area, ends with the clause
   * restricting it to the five preferred sites, and holds every part.
   */
  lemma QueryShape(researchArea: string, fieldOfStudy: string, keywords: Option<seq<string>>, yearConstraint: Option<int>)
    ensures StartsWith(BuildAcademicQuery(researchArea, fieldOfStudy, keywords, yearConstraint), "\"" + researchArea + "\"")
    ensures EndsWith(BuildAcademicQuery(researchArea, fieldOfStudy, keywords, yearConstraint), SourceClause())
    ensures forall k :: 0 <= k < |QueryParts(researchArea, fieldOfStudy, keywords, yearConstraint)| ==>
      Contains(BuildAcademicQuery(researchArea, fieldOfStudy, keywords, yearConstraint),
               QueryParts(researchArea, fieldOfStudy, keywords, yearConstraint)[k])
  {
    var parts := QueryParts(researchArea, fieldOfStudy, keywords, yearConstraint);
    JoinPrefix(" ", parts);
    JoinSuffix(" ", parts);
    JoinContainsAll(" ", parts);
  }

  /** Only the first three keywords reach the query, each of them does. */
  lemma KeywordsLimited(researchArea: string, fieldOfStudy: string, keywords: seq<string>, yearConstraint: Option<int>)
    requires keywords != []
    ensures forall k :: 0 <= k < |keywords| && k < KeywordLimit ==>
      Contains(QueryParts(researchArea, fieldOfStudy, Some(keywords), yearConstraint)[3], keywords[k])
  {
    var shown := FirstKeywords(keywords);
    JoinContainsAll(" OR ", shown);
    forall k | 0 <= k < |keywords| && k < KeywordLimit
      ensures Contains("(" + Join(" OR ", shown) + ")", keywords[k])
    {
      assert shown[k] == keywords[k];
      ContainsShift(Join(" OR ", shown), keywords[k], "(", ")");
    }
  }

  // ---------------------------------------------------------------------------
  // Year extraction, as written
  // ---------------------------------------------------------------------------

  /** `\w` on ASCII text. */
  predicate IsWordChar(c: char) {
    ('a' <= c <= 'z') || ('A' <= c <= 'Z') || ('0' <= c <= '9') || c == '_'
  }

  /** `\b(19|20)\d{2}\b` matches at `i`. */
  predicate YearAt(text: string, i: nat) {
    && i + 4 <= |text|
    && (i == 0 || !IsWordChar(text[i - 1]))
    && ((text[i] == '1' && text[i + 1] == '9') || (text[i] == '2' && text[i + 1] == '0'))
    && IsDigit(text[i + 2]) && IsDigit(text[i + 3])
    && (i + 4 == |text| || !IsWordChar(text[i + 4]))
  }

  /**
   * What `re.findall` returns for that pattern from position `i` on: the
   * pattern has one group, so each match contributes only its group, the
   * century digits.
   */
  function CenturyCaptures(text: string, i: nat): seq<string>
    decreases |text| - i
  {
    if i + 4 > |text| then []
    else if YearAt(text, i) then [text[i..i + 2]] + CenturyCaptures(text, i + 4)
    else CenturyCaptures(text, i + 1)
  }

  /** Each capture is the group `(19|20)`, never the whole year. */
  lemma {:induction false} CapturesAreCenturies(text: string, i: nat)
    ensures forall k :: 0 <= k < |CenturyCaptures(text, i)| ==>
      CenturyCaptures(text, i)[k] == "19" || CenturyCaptures(text, i)[k] == "20"
    decreases |text| - i
  {
    if i + 4 <= |text| {
      if YearAt(text, i) {
        CapturesAreCenturies(text, i + 4);
        var rest := CenturyCaptures(text, i + 4);
        var r := [text[i..i + 2]] + rest;
        if text[i] == '1' {
          assert text[i..i + 2] == "19";
        } else {
          assert text[i..i + 2] == "20";
        }
        assert forall k :: 1 <= k < |r| ==> r[k] == rest[k - 1];
        assert CenturyCaptures(text, i) == r;
      } else {
        CapturesAreCenturies(text, i + 1);
      }
    }
  }

  function ParsedYears(captures: seq<string>): (r: seq<int>)
    ensures |r| == |captures|
  {
    if captures == [] then []
    else [match ParseInt(captures[0]) case Some(y) => y case None => 0] + ParsedYears(captures[1..])
  }

  function Plausible(years: seq<int>, currentYear: int): seq<int>
  {
    if years == [] then []
    else (if 1990 <= years[0] <= currentYear then [years[0]] else []) + Plausible(years[1..], currentYear)
  }

  /** The filter keeps only years from 1990 to the current year. */
  lemma {:induction false} PlausibleBounds(years: seq<int>, currentYear: int)
    ensures forall k :: 0 <= k < |Plausible(years, currentYear)| ==> 1990 <= Plausible(years, currentYear)[k] <= currentYear
  {
    if years != [] {
      PlausibleBounds(years[1..], currentYear);
      var rest := Plausible(years[1..], currentYear);
      var head := if 1990 <= years[0] <= currentYear then [years[0]] else [];
      assert Plausible(years, currentYear) == head + rest;
      assert forall k :: |head| <= k < |head| + |rest| ==> (head + rest)[k] == rest[k - |head|];
    }
  }

  /** Python's `max(ys)`. */
  function Max(ys: seq<int>): int
    requires ys != []
  {
    if |ys| == 1 then ys[0]
    else if ys[0] >= Max(ys[1..]) then ys[0] else Max(ys[1..])
  }

  /** No value exceeds the maximum. */
  lemma {:induction false} MaxIsUpperBound(ys: seq<int>)
    requires ys != []
    ensures forall k :: 0 <= k < |ys| ==> ys[k] <= Max(ys)
  {
    if |ys| > 1 {
      MaxIsUpperBound(ys[1..]);
      assert forall k :: 1 <= k < |ys| ==> ys[k] == ys[1..][k - 1];
    }
  }

  /** The maximum is one of the values, so it keeps any bounds they share. */
  lemma {:induction false} MaxWithin(ys: seq<int>, low: int, high: int)
    requires ys != []
    requires forall k :: 0 <= k < |ys| ==> low <= ys[k] <= high
    ensures low <= Max(ys) <= high
  {
    if |ys| > 1 {
      MaxWithin(ys[1..], low, high);
    }
  }

  /** The years `re.findall` reports in `text`, read as integers. */
  function FoundYears(text: string): seq<int> {
    ParsedYears(CenturyCaptures(text, 0))
  }

  /** The latest of the years from 1990 to the current year, if any. */
  function LatestPlausible(years: seq<int>, currentYear: int): Option<int> {
    var valid := Plausible(years, currentYear);
    if valid != [] then Some(Max(valid)) else None
  }

  /** `_extract_year(snippet, url)`: the latest plausible year among the matches, if any. */
  function ExtractYear(snippet: string, url: string, currentYear: int): Option<int> {
    LatestPlausible(FoundYears(snippet + " " + url), currentYear)
  }

  /** A year, when one is found, lies between 1990 and the current year and no plausible year is later. */
  lemma LatestIsPlausible(years: seq<int>, currentYear: int)
    ensures var r := LatestPlausible(years, currentYear);
      && (r.Some? ==> 1990 <= r.value <= currentYear)
      && (r.Some? ==> forall k :: 0 <= k < |years| && 1990 <= years[k] <= currentYear ==> years[k] <= r.value)
      && (r.None? <==> forall k :: 0 <= k < |years| ==> !(1990 <= years[k] <= currentYear))
  {
    var valid := Plausible(years, currentYear);
    PlausibleBounds(years, currentYear);
    PlausibleKeeps(years, currentYear);
    if valid != [] {
      MaxWithin(valid, 1990, currentYear);
      MaxIsUpperBound(valid);
      PlausibleFrom(years, currentYear);
      assert valid[0] in years;
    }
  }

  lemma {:induction false} PlausibleFrom(years: seq<int>, currentYear: int)
    ensures forall k :: 0 <= k < |Plausible(years, currentYear)| ==> Plausible(years, currentYear)[k] in years
  {
    if years != [] {
      PlausibleFrom(years[1..], currentYear);
      var rest := Plausible(years[1..], currentYear);
      var head := if 1990 <= years[0] <= currentYear then [years[0]] else [];
      assert Plausible(years, currentYear) == head + rest;
      assert forall k :: |head| <= k < |head| + |rest| ==> (head + rest)[k] == rest[k - |head|];
    }
  }

  lemma {:induction false} PlausibleKeeps(years: seq<int>, currentYear: int)
    ensures forall k :: 0 <= k < |years| && 1990 <= years[k] <= currentYear ==> years[k] in Plausible(years, currentYear)
  {
    if years != [] {
      PlausibleKeeps(years[1..], currentYear);
      var rest := Plausible(years[1..], currentYear);
      var head := if 1990 <= years[0] <= currentYear then [years[0]] else [];
      assert Plausible(years, currentYear) == head + rest;
      assert forall k :: 1 <= k < |years| ==> years[k] == years[1..][k - 1];
    }
  }

  lemma ExtractYearPlausible(snippet: string, url: string, currentYear: int)
    ensures var r := ExtractYear(snippet, url, currentYear);
      r.Some? ==> 1990 <= r.value <= currentYear
  {
    LatestIsPlausible(FoundYears(snippet + " " + url), currentYear);
  }

  lemma TwoDigitsValue(c: string)
    requires |c| == 2 && IsDigit(c[0]) && IsDigit(c[1])
    ensures ParseInt(c) == Some((c[0] as int - '0' as int) * 10 + (c[1] as int - '0' as int))
  {
    assert !IsSpace(c[0]) && !IsSpace(c[1]);
    StripOfStripped(c);
    assert IsDigitGroup(c);
    var first := c[..1];
    assert first == [c[0]] && first[..0] == [];
    assert DigitsValue(first) == c[0] as int - '0' as int;
    assert c[..|c| - 1] == first;
  }

  /** A century capture reads as a number below 1990. */
  lemma CenturyValue(c: string)
    requires c == "19" || c == "20"
    ensures ParseInt(c).Some? && ParseInt(c).value < 1990
  {
    TwoDigitsValue(c);
  }

  lemma {:induction false} CenturiesOnly(captures: seq<string>)
    requires forall k :: 0 <= k < |captures| ==> captures[k] == "19" || captures[k] == "20"
    ensures forall k :: 0 <= k < |captures| ==> ParsedYears(captures)[k] < 1990
  {
    if captures != [] {
      CenturyValue(captures[0]);
      assert forall k :: 0 <= k < |captures| - 1 ==> captures[1..][k] == captures[k + 1];
      CenturiesOnly(captures[1..]);
      var y := ParseInt(captures[0]).value;
      assert ParsedYears(captures) == [y] + ParsedYears(captures[1..]);
      ConsBelow(y, ParsedYears(captures[1..]));
    }
  }

  lemma ConsBelow(y: int, rest: seq<int>)
    requires y < 1990 && forall k :: 0 <= k < |rest| ==> rest[k] < 1990
    ensures forall k :: 0 <= k < |[y] + rest| ==> ([y] + rest)[k] < 1990
  {
    forall k | 0 < k < |[y] + rest|
      ensures ([y] + rest)[k] < 1990
    {
      assert ([y] + rest)[k] == rest[k - 1];
    }
  }

  lemma {:induction false} NoPlausible(years: seq<int>, currentYear: int)
    requires forall k :: 0 <= k < |years| ==> years[k] < 1990
    ensures Plausible(years, currentYear) == []
  {
    if years != [] {
      NoPlausible(years[1..], currentYear);
    }
  }

  /**
   * As written the extractor never finds a year: `findall` yields only the
   * captured century, 19 or 20, and neither lies in [1990, current year].
   */
  lemma ExtractYearAlwaysNone(snippet: string, url: string, currentYear: int)
    ensures ExtractYear(snippet, url, currentYear) == None
  {
    var text := snippet + " " + url;
    CapturesAreCenturies(text, 0);
    CenturiesOnly(CenturyCaptures(text, 0));
    NoPlausible(FoundYears(text), currentYear);
  }

  // ---------------------------------------------------------------------------
  // Source extraction
  // ---------------------------------------------------------------------------

  /** `[^/]+` from the start of `s`, greedily: everything before the first slash. */
  function UpToSlash(s: string): (r: string)
    ensures StartsWith(s, r)
    ensures forall k :: 0 <= k < |r| ==> r[k] != '/'
    ensures |r| == |s| || s[|r|] == '/'
  {
    if s == [] || s[0] == '/' then []
    else
      var rest := UpToSlash(s[1..]);
      assert s[1..][..|rest|] == s[1..|rest| + 1];
      [s[0]] + rest
  }

  /** What `(?:www\.)?([^/]+)` captures at the start of `rest`: the optional "www." is skipped when a host follows it. */
  function HostAfterScheme(rest: string): (r: Option<string>)
    ensures r.Some? ==> r.value != [] && forall k :: 0 <= k < |r.value| ==> r.value[k] != '/'
  {
    if StartsWith(rest, "www.") && |rest| > 4 && rest[4] != '/' then Some(UpToSlash(rest[4..]))
    else if rest != [] && rest[0] != '/' then Some(UpToSlash(rest))
    else None
  }

  /** The group `https?://(?:www\.)?([^/]+)` captures when it matches at the start of `s`. */
  function HostMatch(s: string): (r: Option<string>)
    ensures r.Some? ==> r.value != [] && forall k :: 0 <= k < |r.value| ==> r.value[k] != '/'
    ensures r.Some? ==> StartsWith(s, "http://") || StartsWith(s, "https://")
  {
    if StartsWith(s, "https://") then HostAfterScheme(s[8..])
    else if StartsWith(s, "http://") then HostAfterScheme(s[7..])
    else None
  }

  /** `re.search`: the leftmost position where the pattern matches. */
  function SearchHost(url: string, i: nat): (r: Option<string>)
    requires i <= |url|
    ensures r.Some? ==> r.value != [] && forall k :: 0 <= k < |r.value| ==> r.value[k] != '/'
    decreases |url| - i
  {
    match HostMatch(url[i..])
    case Some(h) => Some(h)
    case None => if i == |url| then None else SearchHost(url, i + 1)
  }

  /** `_extract_source(url)`: the host of the first http(s) URL in `url`. */
  function ExtractSource(url: string): (r: Option<string>)
    ensures url == [] ==> r == None
    ensures r.Some? ==> r.value != [] && forall k :: 0 <= k < |r.value| ==> r.value[k] != '/'
  {
    if url == [] then None else SearchHost(url, 0)
  }

  /** A URL without any "http://" or "https://" has no source. */
  lemma {:induction false} NoSchemeNoSource(url: string, i: nat)
    requires i <= |url|
    requires forall j :: i <= j <= |url| ==> !StartsWith(url[j..], "http://") && !StartsWith(url[j..], "https://")
    ensures SearchHost(url, i) == None
    decreases |url| - i
  {
    if i < |url| {
      NoSchemeNoSource(url, i + 1);
    }
  }

  /** "https://www.host/path" and "http://host/path" yield the host. */
  lemma SourceOfPlainUrl(scheme: string, www: bool, host: string, path: string)
    requires scheme == "http://" || scheme == "https://"
    requires host != [] && forall k :: 0 <= k < |host| ==> host[k] != '/'
    requires !StartsWith(host, "www.")
    requires path == [] || path[0] == '/'
    ensures ExtractSource(scheme + (if www then "www." else "") + host + path) == Some(host)
  {
    var rest := (if www then "www." else "") + host + path;
    var url := scheme + (if www then "www." else "") + host + path;
    assert url == scheme + rest;
    SchemeSkipped(scheme, rest);
    HostOfRest(www, host, path);
    assert url[0..] == url;
  }

  lemma SchemeSkipped(scheme: string, rest: string)
    requires scheme == "http://" || scheme == "https://"
    ensures HostMatch(scheme + rest) == HostAfterScheme(rest)
  {
    var s := scheme + rest;
    assert s[..|scheme|] == scheme;
    assert s[|scheme|..] == rest;
    if scheme == "http://" {
      assert s[4] == ':';
    }
  }

  lemma HostOfRest(www: bool, host: string, path: string)
    requires host != [] && forall k :: 0 <= k < |host| ==> host[k] != '/'
    requires !StartsWith(host, "www.")
    requires path == [] || path[0] == '/'
    ensures HostAfterScheme((if www then "www." else "") + host + path) == Some(host)
  {
    UpToSlashPrefix(host, path);
    if www {
      var rest := "www." + host + path;
      assert rest[..4] == "www.";
      assert rest[4..] == host + path;
    } else {
      var rest := host + path;
      assert "" + host + path == rest;
      assert rest[0] == host[0];
      if |host| >= 4 {
        assert rest[..4] == host[..4];
      } else if path != [] {
        assert rest[|host|] == '/';
      }
      assert !StartsWith(rest, "www.");
    }
  }

  lemma {:induction false} UpToSlashPrefix(host: string, path: string)
    requires forall k :: 0 <= k < |host| ==> host[k] != '/'
    requires path == [] || path[0] == '/'
    ensures UpToSlash(host + path) == host
  {
    if host == [] {
      assert host + path == path;
    } else {
      assert (host + path)[1..] == host[1..] + path;
      UpToSlashPrefix(host[1..], path);
    }
  }

  // ---------------------------------------------------------------------------
  // Parsing raw results
  // ---------------------------------------------------------------------------

  /** A raw hit from the search tool; an absent key is `None`. */
  datatype RawResult = RawResult(
    title: Option<string>,
    link: Option<string>,
    url: Option<string>,
    snippet: Option<string>,
    description: Option<string>)

  /** One parsed hit: defaults for absent keys, derived year and source, score zero. */
  function ParsedResult(raw: RawResult, currentYear: int): (r: SearchResult)
  {
    var url := if raw.link.Some? then raw.link.value else raw.url.GetOr("");
    var snippet := if raw.snippet.Some? then raw.snippet.value else raw.description.GetOr("");
    SearchResult(raw.title.GetOr("Untitled"), url, snippet, ExtractSource(url),
                 ExtractYear(snippet, url, currentYear), None, 0.0)
  }

  /** `parse` applied to each hit, in order. */
  function ParseEach(parse: RawResult -> SearchResult, raws: seq<RawResult>): (r: seq<SearchResult>)
    ensures |r| == |raws|
  {
    if raws == [] then []
    else ParseEach(parse, raws[..|raws| - 1]) + [parse(raws[|raws| - 1])]
  }

  lemma {:induction false} ParseEachEntry(parse: RawResult -> SearchResult, raws: seq<RawResult>, i: nat)
    requires i < |raws|
    ensures ParseEach(parse, raws)[i] == parse(raws[i])
  {
    var init := raws[..|raws| - 1];
    if i < |init| {
      ParseEachEntry(parse, init, i);
      assert raws[i] == init[i];
    }
  }

  function Parser(currentYear: int): RawResult -> SearchResult {
    raw => ParsedResult(raw, currentYear)
  }

  /** Entry `i` of the parsed list is hit `i` parsed. */
  lemma ParsedEntry(raws: seq<RawResult>, currentYear: int, i: nat)
    requires i < |raws|
    ensures ParseEach(Parser(currentYear), raws)[i] == ParsedResult(raws[i], currentYear)
  {
    ParseEachEntry(Parser(currentYear), raws, i);
  }

  /** `parse_search_results(raw_results)`: one result per hit, in order. */
  method ParseSearchResults(raws: seq<RawResult>, currentYear: int) returns (parsed: seq<SearchResult>)
    ensures parsed == ParseEach(Parser(currentYear), raws)
  {
    parsed := [];
    var i := 0;
    while i < |raws|
      invariant 0 <= i <= |raws|
      invariant parsed == ParseEach(Parser(currentYear), raws[..i])
    {
      parsed := parsed + [ParsedResult(raws[i], currentYear)];
      i := i + 1;
      assert raws[..i][..i - 1] == raws[..i - 1];
    }
    assert raws[..i] == raws;
  }

  /** Every parsed hit starts unscored and, as written, undated. */
  lemma ParsedUnscoredUndated(raw: RawResult, currentYear: int)
    ensures ParsedResult(raw, currentYear).relevanceScore == 0.0
    ensures ParsedResult(raw, currentYear).year == None
  {
    var r := ParsedResult(raw, currentYear);
    ExtractYearAlwaysNone(r.snippet, r.url, currentYear);
  }

  // ---------------------------------------------------------------------------
  // Filtering and ranking
  // ---------------------------------------------------------------------------

  /** The results whose score reaches `minScore`, in their order. */
  function AtLeast(s: seq<SearchResult>, minScore: real): (r: seq<SearchResult>)
    ensures forall k :: 0 <= k < |r| ==> r[k].relevanceScore >= minScore
  {
    if s == [] then []
    else (if s[0].relevanceScore >= minScore then [s[0]] else []) + AtLeast(s[1..], minScore)
  }

  /** The filter drops exactly the results below the threshold: nothing is added, nothing reaching it is lost. */
  lemma {:induction false} AtLeastKeeps(s: seq<SearchResult>, minScore: real)
    ensures multiset(AtLeast(s, minScore)) <= multiset(s)
    ensures forall x :: x in s && x.relevanceScore >= minScore ==> x in AtLeast(s, minScore)
  {
    if s != [] {
      AtLeastKeeps(s[1..], minScore);
      assert s == [s[0]] + s[1..];
    }
  }

  predicate NonIncreasing(s: seq<SearchResult>) {
    forall i, j :: 0 <= i < j < |s| ==> s[i].relevanceScore >= s[j].relevanceScore
  }

  predicate AllAtMost(s: seq<SearchResult>, v: real) {
    forall k :: 0 <= k < |s| ==> s[k].relevanceScore <= v
  }

  lemma ConsNonIncreasing(x: SearchResult, s: seq<SearchResult>)
    requires NonIncreasing(s) && AllAtMost(s, x.relevanceScore)
    ensures NonIncreasing([x] + s)
  {
    var t := [x] + s;
    forall i, j | 0 <= i < j < |t|
      ensures t[i].relevanceScore >= t[j].relevanceScore
    {
      assert t[j] == s[j - 1];
      if i > 0 {
        assert t[i] == s[i - 1];
      }
    }
  }

  /** The results with score exactly `v`, in their order. */
  function WithScore(s: seq<SearchResult>, v: real): seq<SearchResult> {
    if s == [] then [] else (if s[0].relevanceScore == v then [s[0]] else []) + WithScore(s[1..], v)
  }

  /** Inserts `x` after every element scoring at least as high, keeping ties in arrival order. */
  function Insert(x: SearchResult, s: seq<SearchResult>): (r: seq<SearchResult>)
    ensures |r| == |s| + 1
  {
    if s == [] then [x]
    else if s[0].relevanceScore >= x.relevanceScore then [s[0]] + Insert(x, s[1..])
    else [x] + s
  }

  lemma {:induction false} InsertPermutes(x: SearchResult, s: seq<SearchResult>)
    ensures multiset(Insert(x, s)) == multiset(s) + multiset{x}
  {
    if s != [] {
      assert s == [s[0]] + s[1..];
      if s[0].relevanceScore >= x.relevanceScore {
        InsertPermutes(x, s[1..]);
      }
    }
  }

  lemma {:induction false} InsertAtMost(x: SearchResult, s: seq<SearchResult>, v: real)
    requires AllAtMost(s, v) && x.relevanceScore <= v
    ensures AllAtMost(Insert(x, s), v)
  {
    if s != [] && s[0].relevanceScore >= x.relevanceScore {
      InsertAtMost(x, s[1..], v);
      var r := Insert(x, s[1..]);
      assert forall k :: 1 <= k < |r| + 1 ==> ([s[0]] + r)[k] == r[k - 1];
    }
  }

  lemma {:induction false} InsertSorted(x: SearchResult, s: seq<SearchResult>)
    requires NonIncreasing(s)
    ensures NonIncreasing(Insert(x, s))
  {
    if s == [] {
    } else if s[0].relevanceScore >= x.relevanceScore {
      InsertSorted(x, s[1..]);
      InsertAtMost(x, s[1..], s[0].relevanceScore);
      ConsNonIncreasing(s[0], Insert(x, s[1..]));
    } else {
      ConsNonIncreasing(x, s);
    }
  }

  /** `sorted(results, key=score, reverse=True)`: Python's sort is stable. */
  function RankByScore(s: seq<SearchResult>): (r: seq<SearchResult>)
    ensures |r| == |s|
  {
    if s == [] then [] else Insert(s[|s| - 1], RankByScore(s[..|s| - 1]))
  }

  /** The ranking comes highest score first. */
  lemma {:induction false} RankSorted(s: seq<SearchResult>)
    ensures NonIncreasing(RankByScore(s))
  {
    if s != [] {
      RankSorted(s[..|s| - 1]);
      InsertSorted(s[|s| - 1], RankByScore(s[..|s| - 1]));
    }
  }

  /** The ranking reorders the results and does nothing else. */
  lemma {:induction false} RankPermutes(s: seq<SearchResult>)
    ensures multiset(RankByScore(s)) == multiset(s)
  {
    if s != [] {
      var init := s[..|s| - 1];
      var x := s[|s| - 1];
      assert RankByScore(s) == Insert(x, RankByScore(init));
      RankPermutes(init);
      InsertPermutes(x, RankByScore(init));
      assert s == init + [x];
      assert multiset(s) == multiset(init) + multiset{x};
    }
  }

  lemma {:induction false} WithScoreAppend(a: seq<SearchResult>, b: seq<SearchResult>, v: real)
    ensures WithScore(a + b, v) == WithScore(a, v) + WithScore(b, v)
  {
    if a != [] {
      assert (a + b)[1..] == a[1..] + b;
      WithScoreAppend(a[1..], b, v);
    } else {
      assert a + b == b;
    }
  }

  lemma {:induction false} WithScoreNone(s: seq<SearchResult>, v: real)
    requires AllAtMost(s, v) && forall k :: 0 <= k < |s| ==> s[k].relevanceScore != v
    ensures WithScore(s, v) == []
  {
    if s != [] {
      WithScoreNone(s[1..], v);
    }
  }

  lemma {:induction false} InsertStable(x: SearchResult, s: seq<SearchResult>, v: real)
    requires NonIncreasing(s)
    ensures WithScore(Insert(x, s), v) == WithScore(s, v) + (if x.relevanceScore == v then [x] else [])
  {
    if s == [] {
    } else if s[0].relevanceScore >= x.relevanceScore {
      var rest := Insert(x, s[1..]);
      var head := if s[0].relevanceScore == v then [s[0]] else [];
      var last := if x.relevanceScore == v then [x] else [];
      assert Insert(x, s) == [s[0]] + rest;
      assert ([s[0]] + rest)[1..] == rest;
      TailNonIncreasing(s);
      calc {
        WithScore(Insert(x, s), v);
        head + WithScore(rest, v);
        { InsertStable(x, s[1..], v); }
        head + (WithScore(s[1..], v) + last);
        (head + WithScore(s[1..], v)) + last;
        WithScore(s, v) + last;
      }
    } else {
      InsertInFront(x, s, v);
    }
  }

  /** A result scoring above the head goes first, ahead of every result with its score. */
  lemma InsertInFront(x: SearchResult, s: seq<SearchResult>, v: real)
    requires NonIncreasing(s) && s != [] && s[0].relevanceScore < x.relevanceScore
    ensures WithScore(Insert(x, s), v) == WithScore(s, v) + (if x.relevanceScore == v then [x] else [])
  {
    assert Insert(x, s) == [x] + s;
    assert ([x] + s)[1..] == s;
    if x.relevanceScore == v {
      assert AllAtMost(s, v) by {
        forall k | 0 <= k < |s|
          ensures s[k].relevanceScore <= v
        {
          if k > 0 {
            assert s[0].relevanceScore >= s[k].relevanceScore;
          }
        }
      }
      WithScoreNone(s, v);
    }
  }

  lemma TailNonIncreasing(s: seq<SearchResult>)
    requires NonIncreasing(s) && s != []
    ensures NonIncreasing(s[1..])
  {
    forall i, j | 0 <= i < j < |s| - 1
      ensures s[1..][i].relevanceScore >= s[1..][j].relevanceScore
    {
      assert s[1..][i] == s[i + 1] && s[1..][j] == s[j + 1];
    }
  }

  /**
   * The ranking is stable: the results sharing any one score appear in the
   * order they had before sorting.
   */
  lemma {:induction false} RankStable(s: seq<SearchResult>, v: real)
    ensures WithScore(RankByScore(s), v) == WithScore(s, v)
  {
    if s != [] {
      var init := s[..|s| - 1];
      var x := s[|s| - 1];
      RankStable(init, v);
      RankSorted(init);
      InsertStable(x, RankByScore(init), v);
      assert s == init + [x];
      WithScoreAppend(init, [x], v);
    }
  }

  /** Python's `s[:n]`, where a negative `n` drops the last `-n` elements. */
  function PyPrefix(s: seq<SearchResult>, n: int): (r: seq<SearchResult>)
    ensures 0 <= n ==> |r| == if n < |s| then n else |s|
    ensures n < 0 ==> |r| == if |s| + n < 0 then 0 else |s| + n
    ensures r == s[..|r|]
  {
    if 0 <= n then (if n < |s| then s[..n] else s)
    else if |s| + n < 0 then [] else s[..|s| + n]
  }

  /** Every result rescored, nothing else changed. */
  function Rescored(results: seq<SearchResult>, scoreOf: SearchResult -> real): (r: seq<SearchResult>)
    ensures |r| == |results|
    ensures forall i :: 0 <= i < |results| ==> r[i] == results[i].(relevanceScore := scoreOf(results[i]))
  {
    seq(|results|, i requires 0 <= i < |results| => results[i].(relevanceScore := scoreOf(results[i])))
  }

  /**
   * `filter_and_rank_results(results, ...)`: the rescored results (the
   * source overwrites each result's score in place) and the top `topN` of
   * those reaching `minScore`, highest first.
   */
  method FilterAndRankResults(results: seq<SearchResult>, scoreOf: SearchResult -> real, topN: int, minScore: real)
    returns (scored: seq<SearchResult>, top: seq<SearchResult>)
    ensures scored == Rescored(results, scoreOf)
    ensures top == PyPrefix(RankByScore(AtLeast(scored, minScore)), topN)
  {
    scored := results;
    var i := 0;
    while i < |scored|
      invariant 0 <= i <= |scored| == |results|
      invariant forall k :: 0 <= k < i ==> scored[k] == results[k].(relevanceScore := scoreOf(results[k]))
      invariant forall k :: i <= k < |scored| ==> scored[k] == results[k]
    {
      scored := scored[i := scored[i].(relevanceScore := scoreOf(scored[i]))];
      i := i + 1;
    }
    var filtered := AtLeast(scored, minScore);
    var ranked := RankByScore(filtered);
    top := PyPrefix(ranked, topN);
  }

  /**
   * The returned results all reach the threshold, come highest first, are
   * rescored inputs, and number at most `topN`.
   */
  lemma RankedResults(results: seq<SearchResult>, scoreOf: SearchResult -> real, topN: int, minScore: real)
    ensures var top := PyPrefix(RankByScore(AtLeast(Rescored(results, scoreOf), minScore)), topN);
      && NonIncreasing(top)
      && (forall k :: 0 <= k < |top| ==> top[k].relevanceScore >= minScore && top[k] in Rescored(results, scoreOf))
      && (0 <= topN ==> |top| <= topN)
  {
    var scored := Rescored(results, scoreOf);
    var filtered := AtLeast(scored, minScore);
    var ranked := RankByScore(filtered);
    var top := PyPrefix(ranked, topN);
    RankSorted(filtered);
    RankPermutes(filtered);
    AtLeastKeeps(scored, minScore);
    forall k | 0 <= k < |top|
      ensures top[k].relevanceScore >= minScore && top[k] in scored
    {
      assert top[k] == ranked[k];
      assert ranked[k] in multiset(filtered);
      assert ranked[k] in filtered;
    }
  }

  // ---------------------------------------------------------------------------
  // Literature formatting
  // ---------------------------------------------------------------------------

  const SnippetLimit := 100
  const FallbackRelevance := "Relevant to research area"

  /** A `preliminary_literature` entry. */
  datatype LiteratureItem = LiteratureItem(title: string, relevance: string, link: string)

  /** The snippet cut to 100 characters plus "..." when longer. */
  function SnippetPreview(snippet: string): (r: string)
    ensures |snippet| <= SnippetLimit ==> r == snippet
    ensures |snippet| > SnippetLimit ==> r == snippet[..SnippetLimit] + "..." && |r| == SnippetLimit + 3
    ensures |r| <= SnippetLimit + 3
  {
    if |snippet| > SnippetLimit then snippet[..SnippetLimit] + "..." else snippet
  }

  /** The source with ".com", ".org" and "www." removed, in that order. */
  function SourceName(source: string): string {
    ReplaceAll(ReplaceAll(ReplaceAll(source, ".com", ""), ".org", ""), "www.", "")
  }

  /** The relevance parts: year, source, then always the snippet preview. */
  function RelevanceParts(r: SearchResult): (parts: seq<string>)
    ensures parts != [] && parts[|parts| - 1] == SnippetPreview(r.snippet)
    ensures |parts| <= 3
  {
    var year := if r.year.Some? && r.year.value != 0 then ["Recent publication (" + IntToString(r.year.value) + ")"] else [];
    var source := if r.source.Some? && r.source.value != [] then ["from " + SourceName(r.source.value)] else [];
    year + source + [SnippetPreview(r.snippet)]
  }

  function LiteratureItemOf(r: SearchResult): (item: LiteratureItem)
    ensures item.title == r.title && item.link == r.url
  {
    var parts := RelevanceParts(r);
    LiteratureItem(r.title, if parts != [] then Join(". ", parts) else FallbackRelevance, r.url)
  }

  /** The relevance text always ends with the snippet preview; the fallback text is never chosen. */
  lemma RelevanceEndsWithSnippet(r: SearchResult)
    ensures EndsWith(LiteratureItemOf(r).relevance, SnippetPreview(r.snippet))
    ensures LiteratureItemOf(r).relevance == Join(". ", RelevanceParts(r))
  {
    JoinSuffix(". ", RelevanceParts(r));
  }

  /** One entry of `format_for_literature`: the relevance note is built part by part. */
  method FormatResult(r: SearchResult) returns (item: LiteratureItem)
    ensures item == LiteratureItemOf(r)
  {
    var relevanceParts: seq<string> := [];
    if r.year.Some? && r.year.value != 0 {
      relevanceParts := relevanceParts + ["Recent publication (" + IntToString(r.year.value) + ")"];
    }
    if r.source.Some? && r.source.value != [] {
      relevanceParts := relevanceParts + ["from " + SourceName(r.source.value)];
    }
    relevanceParts := relevanceParts + [SnippetPreview(r.snippet)];
    assert relevanceParts == RelevanceParts(r);
    var relevance := if relevanceParts != [] then Join(". ", relevanceParts) else FallbackRelevance;
    item := LiteratureItem(r.title, relevance, r.url);
  }

  lemma SnocItems(formatted: seq<LiteratureItem>, item: LiteratureItem, results: seq<SearchResult>, i: int)
    requires 0 <= i < |results| && |formatted| == i && item == LiteratureItemOf(results[i])
    requires forall k :: 0 <= k < i ==> formatted[k] == LiteratureItemOf(results[k])
    ensures forall k :: 0 <= k <= i ==> (formatted + [item])[k] == LiteratureItemOf(results[k])
  {
    forall k | 0 <= k <= i
      ensures (formatted + [item])[k] == LiteratureItemOf(results[k])
    {
      if k < i {
        assert (formatted + [item])[k] == formatted[k];
      }
    }
  }

  /** `format_for_literature(results)`: one entry per result, in order. */
  method FormatForLiterature(results: seq<SearchResult>) returns (formatted: seq<LiteratureItem>)
    ensures |formatted| == |results|
    ensures forall i :: 0 <= i < |results| ==> formatted[i] == LiteratureItemOf(results[i])
  {
    formatted := [];
    var i := 0;
    while i < |results|
      invariant 0 <= i <= |results|
      invariant |formatted| == i
      invariant forall k :: 0 <= k < i ==> formatted[k] == LiteratureItemOf(results[k])
    {
      var item := FormatResult(results[i]);
      SnocItems(formatted, item, results, i);
      formatted := formatted + [item];
      i := i + 1;
    }
  }
}

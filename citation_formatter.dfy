/**
 * Citation formatting in the APA, IEEE, Chicago (author-date) and Harvard
 * styles, and the style dispatcher with its APA fallback.
 *
 * Every formatter collects its parts and joins them with single spaces.
 * Python truthiness decides which optional parts appear: an absent or empty
 * string, and an absent or zero year, are left out. The Harvard access date,
 * which the source reads from the clock, is a parameter.
 */
module CitationFormatter {
  import opened Wrappers
  import opened Text

  /** The five fields every formatter receives. */
  datatype Reference = Reference(
    title: string,
    authors: Option<string>,
    year: Option<int>,
    url: Option<string>,
    source: Option<string>)

  /** `if s:` for an optional string. */
  predicate Given(s: Option<string>) {
    s.Some? && s.value != []
  }

  /** `if year:` for an optional integer. */
  predicate Dated(year: Option<int>) {
    year.Some? && year.value != 0
  }

  const DoiHost := "doi.org"
  const DoiPrefix := "doi.org/"

  // ---------------------------------------------------------------------------
  // APA
  // ---------------------------------------------------------------------------

  function ApaAuthors(ref: Reference): string {
    if Given(ref.authors) then ref.authors.value + "." else "Author unknown."
  }

  function ApaYear(ref: Reference): string {
    if Dated(ref.year) then "(" + IntToString(ref.year.value) + ")." else "(n.d.)."
  }

  /** A DOI link is rewritten to its canonical https form; any other link is quoted as retrieved. */
  function ApaLink(url: string): string {
    if Contains(url, DoiHost) then "https://doi.org/" + AfterLast(url, DoiPrefix)
    else "Retrieved from " + url
  }

  function ApaParts(ref: Reference): (parts: seq<string>)
    ensures 3 <= |parts| <= 5
  {
    [ApaAuthors(ref), ApaYear(ref), ref.title + "."]
    + (if Given(ref.source) then [ref.source.value + "."] else [])
    + (if Given(ref.url) then [ApaLink(ref.url.value)] else [])
  }

  /** `format_apa(...)`. */
  function FormatApa(ref: Reference): string {
    Join(" ", ApaParts(ref))
  }

  /**
   * An APA citation opens with the authors, or "Author unknown." when there
   * are none, carries "(n.d.)." when undated, names the title, and ends with
   * the link whenever there is one.
   */
  lemma ApaShape(ref: Reference)
    ensures StartsWith(FormatApa(ref), if Given(ref.authors) then ref.authors.value + "." else "Author unknown.")
    ensures !Dated(ref.year) ==> Contains(FormatApa(ref), "(n.d.).")
    ensures Contains(FormatApa(ref), ref.title + ".")
    ensures Given(ref.url) ==> EndsWith(FormatApa(ref), ApaLink(ref.url.value))
  {
    var parts := ApaParts(ref);
    JoinPrefix(" ", parts);
    JoinSuffix(" ", parts);
    JoinContainsPart(" ", parts, 1);
    JoinContainsPart(" ", parts, 2);
  }

  /** What `str.split(sep)[-1]` keeps when `s` holds no `sep`: all of it, after what was gathered. */
  lemma {:induction false} PieceAfterPlain(s: string, sep: string, acc: string)
    requires |sep| > 0 && !Contains(s, sep)
    ensures PieceAfter(s, sep, acc) == acc + s
    decreases |s|
  {
    if s != [] {
      PieceAfterPlain(s[1..], sep, acc + [s[0]]);
      assert acc + [s[0]] + s[1..] == acc + s;
    }
  }

  /** Characters that cannot begin the separator are gathered one by one. */
  lemma {:induction false} PieceAfterSkips(p: string, rest: string, sep: string, acc: string)
    requires |sep| > 0
    requires forall j :: 0 <= j < |p| ==> p[j] != sep[0]
    ensures PieceAfter(p + rest, sep, acc) == PieceAfter(rest, sep, acc + p)
    decreases |p|
  {
    if p == [] {
      assert p + rest == rest;
      assert acc + p == acc;
    } else {
      var s := p + rest;
      assert s[0] == p[0] && s[0] != sep[0];
      assert s[1..] == p[1..] + rest;
      PieceAfterSkips(p[1..], rest, sep, acc + [p[0]]);
      assert acc + [p[0]] + p[1..] == acc + p;
    }
  }

  /** A URL free of "d" before its single "doi.org/" keeps only the identifier. */
  lemma AfterDoiPrefix(p: string, id: string)
    requires forall j :: 0 <= j < |p| ==> p[j] != 'd'
    requires !Contains(id, DoiPrefix)
    ensures AfterLast(p + DoiPrefix + id, DoiPrefix) == id
  {
    assert p + DoiPrefix + id == p + (DoiPrefix + id);
    PieceAfterSkips(p, DoiPrefix + id, DoiPrefix, []);
    var s := DoiPrefix + id;
    assert s[..|DoiPrefix|] == DoiPrefix;
    assert s[|DoiPrefix|..] == id;
    PieceAfterPlain(id, DoiPrefix, []);
  }

  /**
   * A DOI link such as "http://doi.org/10.1000/x" or
   * "https://www.doi.org/10.1000/x" is cited as "https://doi.org/10.1000/x".
   */
  lemma ApaDoiCanonical(ref: Reference, p: string, id: string)
    requires forall j :: 0 <= j < |p| ==> p[j] != 'd'
    requires !Contains(id, DoiPrefix)
    requires ref.url == Some(p + DoiPrefix + id)
    ensures EndsWith(FormatApa(ref), "https://doi.org/" + id)
  {
    var url := p + DoiPrefix + id;
    assert url[|p|..|p| + |DoiHost|] == DoiHost;
    ContainsAt(url, DoiHost, |p|);
    AfterDoiPrefix(p, id);
    ApaShape(ref);
  }

  /** A link without "doi.org" is cited as retrieved from that link. */
  lemma ApaPlainLink(ref: Reference)
    requires Given(ref.url) && !Contains(ref.url.value, DoiHost)
    ensures EndsWith(FormatApa(ref), "Retrieved from " + ref.url.value)
  {
    ApaShape(ref);
  }

  // ---------------------------------------------------------------------------
  // IEEE
  // ---------------------------------------------------------------------------

  function IeeeParts(ref: Reference): (parts: seq<string>)
    ensures 1 <= |parts| <= 5
  {
    (if Given(ref.authors) then [ref.authors.value + ","] else [])
    + ["\"" + ref.title + ",\""]
    + (if Given(ref.source) then [ref.source.value + ","] else [])
    + (if Dated(ref.year) then [IntToString(ref.year.value) + "."] else [])
    + (if Given(ref.url) then ["[Online]. Available: " + ref.url.value] else [])
  }

  /** `format_ieee(...)`. */
  function FormatIeee(ref: Reference): string {
    Join(" ", IeeeParts(ref))
  }

  /**
   * An IEEE citation quotes the title, opens with the authors when there are
   * some and with the quoted title otherwise, ends with the online link
   * when there is one, and is just the quoted title when nothing else is
   * known.
   */
  lemma IeeeShape(ref: Reference)
    ensures Contains(FormatIeee(ref), "\"" + ref.title + ",\"")
    ensures StartsWith(FormatIeee(ref), if Given(ref.authors) then ref.authors.value + "," else "\"" + ref.title + ",\"")
    ensures Given(ref.url) ==> EndsWith(FormatIeee(ref), "[Online]. Available: " + ref.url.value)
    ensures !Given(ref.authors) && !Given(ref.source) && !Dated(ref.year) && !Given(ref.url) ==>
      FormatIeee(ref) == "\"" + ref.title + ",\""
  {
    var parts := IeeeParts(ref);
    var k := if Given(ref.authors) then 1 else 0;
    assert parts[k] == "\"" + ref.title + ",\"";
    JoinContainsPart(" ", parts, k);
    JoinPrefix(" ", parts);
    JoinSuffix(" ", parts);
  }

  // ---------------------------------------------------------------------------
  // Chicago (author-date)
  // ---------------------------------------------------------------------------

  function ChicagoParts(ref: Reference): (parts: seq<string>)
    ensures 1 <= |parts| <= 5
  {
    (if Given(ref.authors) then [ref.authors.value + "."] else [])
    + (if Dated(ref.year) then [IntToString(ref.year.value) + "."] else [])
    + ["\"" + ref.title + ".\""]
    + (if Given(ref.source) then [ref.source.value + "."] else [])
    + (if Given(ref.url) then [ref.url.value + "."] else [])
  }

  /** `format_chicago(...)`. */
  function FormatChicago(ref: Reference): string {
    Join(" ", ChicagoParts(ref))
  }

  /**
   * A Chicago citation quotes the title, ends with the link and a full stop
   * when there is one, and is just the quoted title when nothing else is
   * known.
   */
  lemma ChicagoShape(ref: Reference)
    ensures Contains(FormatChicago(ref), "\"" + ref.title + ".\"")
    ensures Given(ref.url) ==> EndsWith(FormatChicago(ref), ref.url.value + ".")
    ensures !Given(ref.authors) && !Given(ref.source) && !Dated(ref.year) && !Given(ref.url) ==>
      FormatChicago(ref) == "\"" + ref.title + ".\""
  {
    var parts := ChicagoParts(ref);
    var k := (if Given(ref.authors) then 1 else 0) + (if Dated(ref.year) then 1 else 0);
    assert parts[k] == "\"" + ref.title + ".\"";
    JoinContainsPart(" ", parts, k);
    JoinSuffix(" ", parts);
  }

  // ---------------------------------------------------------------------------
  // Harvard
  // ---------------------------------------------------------------------------

  function HarvardParts(ref: Reference, accessDate: string): (parts: seq<string>)
    ensures 3 <= |parts| <= 6
  {
    [if Given(ref.authors) then ref.authors.value else "Author unknown",
     if Dated(ref.year) then "(" + IntToString(ref.year.value) + ")" else "(n.d.)",
     ref.title + "."]
    + (if Given(ref.source) then [ref.source.value + "."] else [])
    + (if Given(ref.url) then ["Available at: " + ref.url.value, "(Accessed: " + accessDate + ")."] else [])
  }

  /** `format_harvard(...)`, with the day the link was accessed as `accessDate`. */
  function FormatHarvard(ref: Reference, accessDate: string): string {
    Join(" ", HarvardParts(ref, accessDate))
  }

  /**
   * A Harvard citation opens with the authors or "Author unknown", names the
   * title, and, exactly when there is a link, gives it and closes with the
   * access date; without a link it closes with the title or the source.
   */
  lemma HarvardShape(ref: Reference, accessDate: string)
    ensures StartsWith(FormatHarvard(ref, accessDate), if Given(ref.authors) then ref.authors.value else "Author unknown")
    ensures Contains(FormatHarvard(ref, accessDate), ref.title + ".")
    ensures Given(ref.url) ==> EndsWith(FormatHarvard(ref, accessDate), "(Accessed: " + accessDate + ").")
    ensures Given(ref.url) ==> Contains(FormatHarvard(ref, accessDate), "Available at: " + ref.url.value)
    ensures !Given(ref.url) ==>
      EndsWith(FormatHarvard(ref, accessDate), if Given(ref.source) then ref.source.value + "." else ref.title + ".")
  {
    var parts := HarvardParts(ref, accessDate);
    JoinPrefix(" ", parts);
    JoinSuffix(" ", parts);
    JoinContainsPart(" ", parts, 2);
    if Given(ref.url) {
      JoinContainsPart(" ", parts, |parts| - 2);
    }
  }

  // ---------------------------------------------------------------------------
  // Dispatch
  // ---------------------------------------------------------------------------

  /** `format_citation(...)`: the style is matched case-insensitively; an unknown style falls back to APA. */
  function FormatCitation(ref: Reference, style: string, accessDate: string): string {
    var key := Upper(style);
    if key == "IEEE" then FormatIeee(ref)
    else if key == "CHICAGO" then FormatChicago(ref)
    else if key == "HARVARD" then FormatHarvard(ref, accessDate)
    else FormatApa(ref)
  }

  lemma UpperIdempotent(s: string)
    ensures Upper(Upper(s)) == Upper(s)
  {
    assert forall i :: 0 <= i < |s| ==> UpperChar(UpperChar(s[i])) == UpperChar(s[i]);
  }

  /** The style name's letter case does not matter. */
  lemma StyleCaseInsensitive(ref: Reference, style: string, accessDate: string)
    ensures FormatCitation(ref, Upper(style), accessDate) == FormatCitation(ref, style, accessDate)
    ensures FormatCitation(ref, Lower(style), accessDate) == FormatCitation(ref, style, accessDate)
  {
    UpperIdempotent(style);
    UpperOfLower(style);
  }

  lemma UpperOfLower(s: string)
    ensures Upper(Lower(s)) == Upper(s)
  {
    assert forall i :: 0 <= i < |s| ==> UpperChar(LowerChar(s[i])) == UpperChar(s[i]);
  }

  /** Whatever the style, the citation names the title. */
  lemma CitationNamesTitle(ref: Reference, style: string, accessDate: string)
    ensures Contains(FormatCitation(ref, style, accessDate), ref.title)
  {
    var key := Upper(style);
    if key == "IEEE" {
      IeeeShape(ref);
      ContainsInfix("\"", ref.title, ",\"");
      ContainsTrans(FormatIeee(ref), "\"" + ref.title + ",\"", ref.title);
    } else if key == "CHICAGO" {
      ChicagoShape(ref);
      ContainsInfix("\"", ref.title, ".\"");
      ContainsTrans(FormatChicago(ref), "\"" + ref.title + ".\"", ref.title);
    } else if key == "HARVARD" {
      HarvardShape(ref, accessDate);
      TitleInTitled(ref.title);
      ContainsTrans(FormatHarvard(ref, accessDate), ref.title + ".", ref.title);
    } else {
      ApaShape(ref);
      TitleInTitled(ref.title);
      ContainsTrans(FormatApa(ref), ref.title + ".", ref.title);
    }
  }

  lemma TitleInTitled(title: string)
    ensures Contains(title + ".", title)
  {
    ContainsInfix([], title, ".");
    assert [] + title + "." == title + ".";
  }

  /** A style other than the four known ones gives the APA citation. */
  lemma UnknownStyleIsApa(ref: Reference, style: string, accessDate: string)
    requires Upper(style) !in {"IEEE", "CHICAGO", "HARVARD"}
    ensures FormatCitation(ref, style, accessDate) == FormatApa(ref)
    ensures StartsWith(FormatCitation(ref, style, accessDate), ApaAuthors(ref))
  {
    ApaShape(ref);
  }

  /** Where `sub` occurs in `s`. */
  lemma {:induction false} ContainsIndex(s: string, sub: string) returns (i: nat)
    requires Contains(s, sub)
    ensures i + |sub| <= |s| && s[i..i + |sub|] == sub
    decreases |s|
  {
    if StartsWith(s, sub) {
      i := 0;
    } else {
      var j := ContainsIndex(s[1..], sub);
      i := j + 1;
      assert s[i..i + |sub|] == s[1..][j..j + |sub|];
    }
  }

  /** Containment is transitive. */
  lemma ContainsTrans(s: string, inner: string, sub: string)
    requires Contains(s, inner) && Contains(inner, sub)
    ensures Contains(s, sub)
  {
    var i := ContainsIndex(s, inner);
    var j := ContainsIndex(inner, sub);
    assert forall k :: 0 <= k < |sub| ==> s[i + j + k] == s[i..i + |inner|][j + k] == inner[j + k] == sub[k];
    assert s[i + j..i + j + |sub|] == sub;
    ContainsAt(s, sub, i + j);
  }
}

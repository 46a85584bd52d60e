/**
 * The records each stage produces, with the validating constructor that
 * builds one from a parsed JSON dict (`Model(**data)`) and the dump back to a
 * dict (`model_dump()`).
 *
 * Decoding follows the declared field types: a required field must be
 * present, a defaulted one takes its default when absent, unknown keys are
 * ignored. Besides exact types, the coercions of lax validation are
 * modelled: a bool is accepted as an int or a float, an int as a float, a
 * whole float as an int, and 0 or 1 as a bool; a string is accepted as an
 * int when it holds an integer literal (optionally followed by a point and
 * zeros), as a float when it holds a plain decimal literal that a float
 * holds and prints exactly (`FloatLiteral`), and as a bool when,
 * lower-cased, it is one of the words for true or false. An integer
 * literal may group its digits with single underscores; a float literal may
 * not, and exponent forms and non-finite values are not read as floats.
 */
module DataModels {
  import opened Wrappers
  import opened Text
  import opened Errors
  import opened JsonData

  /** A Python float: its value and the text `str()` shows for it. */
  datatype Float = Float(value: real, repr: string)

  datatype Timeline = Timeline(value: int, unit: string)

  datatype UserProfile = UserProfile(
    academicProgram: string,
    fieldOfStudy: string,
    researchArea: string,
    weeklyHours: int,
    totalTimeline: Timeline,
    existingSkills: seq<string>,
    missingSkills: seq<string>,
    constraints: seq<string>,
    additionalContext: Option<string>)

  datatype LiteratureEntry = LiteratureEntry(title: string, url: string, relevanceNote: string, source: Option<string>)

  datatype ProblemDefinition = ProblemDefinition(
    problemStatement: string,
    mainResearchQuestion: string,
    secondaryQuestions: seq<string>,
    keyVariables: seq<string>,
    preliminaryLiterature: seq<LiteratureEntry>,
    refinementHistory: seq<Fields>)

  datatype ResearchObjectives = ResearchObjectives(
    generalObjective: string,
    specificObjectives: seq<string>,
    feasibilityNotes: Fields,
    alignmentCheck: Fields)

  datatype MethodologyRecommendation = MethodologyRecommendation(
    recommendedMethodology: string,
    methodologyType: string,
    justification: string,
    requiredSkills: seq<string>,
    timelineFit: Fields,
    alternativeMethodologies: seq<Fields>)

  datatype DataCollectionPlan = DataCollectionPlan(
    collectionTechniques: seq<string>,
    recommendedTools: seq<Fields>,
    dataSources: seq<string>,
    estimatedSampleSize: string,
    timelineBreakdown: Fields,
    resourceRequirements: seq<string>)

  datatype QualityValidation = QualityValidation(
    validationPassed: bool,
    coherenceScore: Float,
    feasibilityScore: Float,
    overallQualityScore: Float,
    issuesIdentified: seq<Fields>,
    recommendations: seq<string>,
    requiresRefinement: bool,
    refinementTargets: seq<string>)

  // ---------------------------------------------------------------------
  // Field conversions
  // ---------------------------------------------------------------------

  function AsStr(j: Json): (r: Option<string>)
    ensures r.Some? <==> j.JStr?
    ensures j.JStr? ==> r == Some(j.s)
  {
    if j.JStr? then Some(j.s) else None
  }

  /**
   * A string read as an `int`: an integer literal as `int(s)` takes it, or,
   * once the string is stripped, one followed by a point and nothing but
   * zeros ("15.0", "15.").
   */
  function IntFromText(s: string): (r: Option<int>)
    ensures ParseInt(s).Some? ==> r == ParseInt(s)
    ensures ParseInt(s).None? ==> r == ZeroFractionLiteral(Strip(s))
  {
    if ParseInt(s).Some? then ParseInt(s) else ZeroFractionLiteral(Strip(s))
  }

  /** An integer literal followed by a point and only zeros, read as the literal. */
  function ZeroFractionLiteral(t: string): (r: Option<int>)
    ensures r.Some? ==> && IndexOf(t, '.') < |t|
                        && (forall i :: IndexOf(t, '.') < i < |t| ==> t[i] == '0')
                        && r == IntLiteral(t[..IndexOf(t, '.')])
  {
    var k := IndexOf(t, '.');
    if k < |t| && (forall i :: k < i < |t| ==> t[i] == '0') then IntLiteral(t[..k]) else None
  }

  /** On a string without surrounding whitespace, the `int` reading needs no strip. */
  lemma IntFromTextOfStripped(t: string)
    requires IsStripped(t)
    ensures IntFromText(t) == if ParseInt(t).Some? then ParseInt(t) else ZeroFractionLiteral(t)
  {
    StripOfStripped(t);
  }

  function AsInt(j: Json): (r: Option<int>)
    ensures j.JInt? ==> r == Some(j.i)
    // A number is accepted when it is whole, and keeps its value.
    ensures IsNumber(j) ==> (r.Some? <==> NumberValue(j) == NumberValue(j).Floor as real)
    ensures IsNumber(j) && r.Some? ==> r.value as real == NumberValue(j)
    ensures j.JStr? ==> r == IntFromText(j.s)
    ensures !IsNumber(j) && !j.JStr? ==> r.None?
  {
    match j
    case JInt(i) => Some(i)
    case JBool(b) => Some(if b then 1 else 0)
    case JFloat(v, _) => if v == v.Floor as real then Some(v.Floor) else None
    case JStr(s) => IntFromText(s)
    case _ => None
  }

  /** An integer literal followed by ".0" reads as the literal alone. */
  lemma PointZeroIgnored(w: string)
    requires w != [] && IsStripped(w) && forall c :: 0 <= c < |w| ==> w[c] != '.'
    ensures IntFromText(w + ".0") == ParseInt(w)
  {
    var t := w + ".0";
    assert IsStripped(t);
    ParseIntOfStripped(t);
    ParseIntOfStripped(w);
    IntLiteralRejectsPoint(t, |w|);
    IntFromTextOfStripped(t);
    IndexOfAt(t, '.', |w|);
    assert t[..|w|] == w;
  }

  /** `str(i)` and `str(float(i))` both read back as `i`. */
  lemma IntTextRoundTrip(i: int)
    ensures AsInt(JStr(IntToString(i))) == Some(i)
    ensures AsInt(JStr(IntToFloat(i).repr)) == Some(i)
  {
    ParseIntOfIntToString(i);
    IntToStringDigits(i);
    PointZeroIgnored(IntToString(i));
  }

  /**
   * `float(i)` for an integer: the value kept exactly and printed as the
   * digits followed by ".0". This is what Python shows for |i| <= 2**53;
   * beyond that Python rounds the value, and from 10**16 on it prints an
   * exponent.
   */
  function IntToFloat(i: int): (r: Float)
    ensures r.value == i as real
  {
    Float(i as real, IntToString(i) + ".0")
  }

  /** A plain decimal literal: its sign and its digits before and after the point. */
  datatype Decimal = Decimal(negative: bool, whole: string, fraction: string)

  /** Splits `[+|-]digits[.digits]`, holding at least one digit, into its parts. */
  function DecimalText(t: string): (r: Option<Decimal>)
    ensures r.Some? ==> AllDigits(r.value.whole) && AllDigits(r.value.fraction)
    ensures r.Some? ==> r.value.whole != [] || r.value.fraction != []
  {
    var body := if t != [] && (t[0] == '+' || t[0] == '-') then t[1..] else t;
    var k := IndexOf(body, '.');
    var whole := body[..k];
    var fraction := if k < |body| then body[k + 1..] else [];
    if AllDigits(whole) && AllDigits(fraction) && (whole != [] || fraction != []) then
      Some(Decimal(t != [] && t[0] == '-', whole, fraction))
    else None
  }

  function DecimalValue(whole: string, fraction: string): real
    requires AllDigits(whole) && AllDigits(fraction)
  {
    DigitsValue(whole) as real + FractionValue(fraction)
  }

  /** The value of the digits after a point: `0.d1d2...`. */
  function FractionValue(fraction: string): (r: real)
    requires AllDigits(fraction)
  {
    if fraction == [] then 0.0
    else ((fraction[0] as int - '0' as int) as real + FractionValue(fraction[1..])) / 10.0
  }

  /** A string read as a `float`: a plain decimal literal, once stripped. */
  function FloatFromText(s: string): Option<Float> {
    FloatLiteral(Strip(s))
  }

  /**
   * The plain decimals whose value Python holds and prints exactly: at most
   * 15 significant digits, and zero or a magnitude from 0.0001, where `repr`
   * writes the digits without an exponent, leading zeros of the whole part
   * and trailing zeros of the fraction dropped.
   */
  function FloatLiteral(t: string): Option<Float> {
    match DecimalText(t)
    case None => None
    case Some(d) =>
      assert AllDigits(DropLeadingZeros(d.whole)) && AllDigits(DropTrailingZeros(d.fraction));
      FloatOfParts(d.negative, DropLeadingZeros(d.whole), DropTrailingZeros(d.fraction))
  }

  /** The float of a literal's sign and digits, leading and trailing zeros already dropped. */
  function FloatOfParts(negative: bool, whole: string, fraction: string): Option<Float>
    requires AllDigits(whole) && AllDigits(fraction)
    requires whole == [] || whole[0] != '0'
  {
    var magnitude := DecimalValue(whole, fraction);
    if |whole| + |fraction| <= 15 && (magnitude == 0.0 || magnitude >= 0.0001) then
      Some(Float(if negative then -magnitude else magnitude, ReprText(negative, whole, fraction)))
    else None
  }

  /** `repr` of such a float: the sign, the whole digits or "0", a point, the fraction digits or "0". */
  function ReprText(negative: bool, whole: string, fraction: string): string {
    (if negative then "-" else "") + (if whole == [] then "0" else whole) + "." + (if fraction == [] then "0" else fraction)
  }

  /** A float read from a string is zero or of magnitude from 0.0001, and below 10 ** 16. */
  lemma FloatFromTextRange(s: string)
    requires FloatFromText(s).Some?
    ensures var v := FloatFromText(s).value.value;
            && -(Pow10(16) as real) < v < Pow10(16) as real
            && (v == 0.0 || v >= 0.0001 || v <= -0.0001)
  {
    var d := DecimalText(Strip(s)).value;
    MagnitudeBound(DropLeadingZeros(d.whole), DropTrailingZeros(d.fraction));
  }

  /** Fifteen digits or fewer, the whole part without leading zeros, stand for less than 10 ** 16. */
  lemma MagnitudeBound(whole: string, fraction: string)
    requires AllDigits(whole) && AllDigits(fraction)
    requires whole == [] || whole[0] != '0'
    requires |whole| + |fraction| <= 15
    ensures 0.0 <= DecimalValue(whole, fraction) < Pow10(16) as real
  {
    FractionBelowOne(fraction);
    if whole != [] {
      DigitsValueBound(whole);
      Pow10Monotone(|whole|, 15);
    }
    assert Pow10(16) == 10 * Pow10(15);
  }

  /** The digits after a point stand for less than one. */
  lemma {:induction false} FractionBelowOne(fraction: string)
    requires AllDigits(fraction)
    ensures 0.0 <= FractionValue(fraction) < 1.0
  {
    if fraction != [] {
      FractionBelowOne(fraction[1..]);
    }
  }

  lemma {:induction false} Pow10Monotone(j: nat, k: nat)
    requires j <= k
    ensures Pow10(j) <= Pow10(k)
  {
    if j < k {
      Pow10Monotone(j, k - 1);
    }
  }

  function AsFloat(j: Json): (r: Option<Float>)
    // Every number is accepted, keeping its value; a float keeps its text too.
    ensures IsNumber(j) ==> r.Some? && r.value.value == NumberValue(j)
    ensures j.JFloat? ==> r == Some(Float(j.value, j.repr))
    ensures j.JStr? ==> r == FloatFromText(j.s)
    ensures !IsNumber(j) && !j.JStr? ==> r.None?
  {
    match j
    case JFloat(v, repr) => Some(Float(v, repr))
    case JInt(i) => Some(IntToFloat(i))
    case JBool(b) => Some(IntToFloat(if b then 1 else 0))
    case JStr(s) => FloatFromText(s)
    case _ => None
  }

  /** On a string without surrounding whitespace, the `float` reading needs no strip. */
  lemma FloatFromTextOfStripped(t: string)
    requires IsStripped(t)
    ensures FloatFromText(t) == FloatLiteral(t)
  {
    StripOfStripped(t);
  }

  /** The parts of a literal with a point. */
  lemma DecimalTextWithPoint(negative: bool, w: string, f: string)
    requires AllDigits(w) && AllDigits(f) && w != []
    ensures DecimalText((if negative then "-" else "") + w + "." + f) == Some(Decimal(negative, w, f))
  {
    var u := (if negative then "-" else "") + w + "." + f;
    var body := w + "." + f;
    assert body == if u != [] && (u[0] == '+' || u[0] == '-') then u[1..] else u;
    IndexOfAt(body, '.', |w|);
    assert body[..|w|] == w && body[|w| + 1..] == f;
  }

  /** The parts of a literal without a point. */
  lemma DecimalTextWithoutPoint(negative: bool, w: string)
    requires AllDigits(w) && w != []
    ensures DecimalText((if negative then "-" else "") + w) == Some(Decimal(negative, w, []))
  {
    var u := (if negative then "-" else "") + w;
    assert w == if u != [] && (u[0] == '+' || u[0] == '-') then u[1..] else u;
    IndexOfAt(w, '.', |w|);
    assert w[..|w|] == w;
  }

  /** The text `repr` writes for a literal's parts reads back as the same parts. */
  lemma ReprParts(negative: bool, whole: string, fraction: string)
    requires AllDigits(whole) && AllDigits(fraction)
    requires whole == [] || whole[0] != '0'
    requires fraction == [] || fraction[|fraction| - 1] != '0'
    ensures FloatFromText(ReprText(negative, whole, fraction)) == FloatOfParts(negative, whole, fraction)
  {
    var w := if whole == [] then "0" else whole;
    var f := if fraction == [] then "0" else fraction;
    var t := ReprText(negative, whole, fraction);
    PointLiteralStripped(if negative then "-" else "", w, f);
    FloatFromTextOfStripped(t);
    DecimalTextWithPoint(negative, w, f);
    assert DropLeadingZeros(w) == whole;
    assert DropTrailingZeros(f) == fraction;
  }

  /** The text Python prints for a float read from a string reads back as the same float. */
  lemma FloatTextRoundTrip(s: string)
    requires FloatFromText(s).Some?
    ensures FloatFromText(FloatFromText(s).value.repr) == FloatFromText(s)
  {
    var d := DecimalText(Strip(s)).value;
    ReprParts(d.negative, DropLeadingZeros(d.whole), DropTrailingZeros(d.fraction));
  }

  /** Parts of at most 15 digits, of zero value or from 0.0001, are held with their sign, `repr` writing them back. */
  lemma HeldParts(negative: bool, whole: string, fraction: string)
    requires AllDigits(whole) && AllDigits(fraction) && (whole == [] || whole[0] != '0')
    requires |whole| + |fraction| <= 15
    requires DecimalValue(whole, fraction) == 0.0 || DecimalValue(whole, fraction) >= 0.0001
    ensures FloatOfParts(negative, whole, fraction) ==
              Some(Float(if negative then -DecimalValue(whole, fraction) else DecimalValue(whole, fraction),
                         ReprText(negative, whole, fraction)))
  {
  }

  /** A whole number of at most 15 digits is held exactly, with ".0" written after it. */
  lemma WholeFloat(negative: bool, whole: string)
    requires AllDigits(whole) && (whole == [] || whole[0] != '0') && |whole| <= 15
    ensures FloatOfParts(negative, whole, []) ==
              Some(Float(if negative then -(DigitsValue(whole) as real) else DigitsValue(whole) as real,
                         ReprText(negative, whole, [])))
  {
    assert DecimalValue(whole, []) == DigitsValue(whole) as real;
    HeldParts(negative, whole, []);
  }

  /** A literal's float is built from its parts, leading and trailing zeros dropped. */
  lemma FloatLiteralOfParts(t: string, d: Decimal)
    requires DecimalText(t) == Some(d)
    ensures AllDigits(DropLeadingZeros(d.whole)) && AllDigits(DropTrailingZeros(d.fraction))
    ensures FloatLiteral(t) == FloatOfParts(d.negative, DropLeadingZeros(d.whole), DropTrailingZeros(d.fraction))
  {
  }

  /** The text facts about a signed literal of digits without a point. */
  lemma WholeLiteralText(negative: bool, digits: string)
    requires AllDigits(digits) && digits != []
    ensures var t := (if negative then "-" else "") + digits;
            && IsStripped(t)
            && DecimalText(t) == Some(Decimal(negative, digits, []))
            && DropTrailingZeros([]) == []
  {
    DigitLiteralStripped(if negative then "-" else "", digits);
    DecimalTextWithoutPoint(negative, digits);
  }

  /** A literal of at most 15 digits without a point or a leading zero reads as its whole number, `repr` adding ".0". */
  lemma NonzeroLiteralFloat(negative: bool, digits: string)
    requires AllDigits(digits) && digits != [] && digits[0] != '0' && |digits| <= 15
    ensures FloatFromText((if negative then "-" else "") + digits) ==
              Some(Float(if negative then -(DigitsValue(digits) as real) else DigitsValue(digits) as real,
                         (if negative then "-" else "") + digits + ".0"))
  {
    var t := (if negative then "-" else "") + digits;
    WholeLiteralText(negative, digits);
    FloatFromTextOfStripped(t);
    FloatLiteralOfParts(t, Decimal(negative, digits, []));
    NonzeroDigitsFloat(negative, digits);
  }

  /** "0" and "-0" read as zero, `repr` adding ".0". */
  lemma ZeroLiteralFloat(negative: bool)
    ensures FloatFromText((if negative then "-" else "") + "0") ==
              Some(Float(if negative then -(DigitsValue("0") as real) else DigitsValue("0") as real,
                         (if negative then "-" else "") + "0" + ".0"))
  {
    var t := (if negative then "-" else "") + "0";
    WholeLiteralText(negative, "0");
    FloatFromTextOfStripped(t);
    FloatLiteralOfParts(t, Decimal(negative, "0", []));
    ZeroDigitFloat(negative);
  }

  /** The float of a run of at most 15 digits without a leading zero is its whole number. */
  lemma NonzeroDigitsFloat(negative: bool, digits: string)
    requires AllDigits(digits) && digits != [] && digits[0] != '0' && |digits| <= 15
    ensures FloatOfParts(negative, DropLeadingZeros(digits), []) ==
              Some(Float(if negative then -(DigitsValue(digits) as real) else DigitsValue(digits) as real,
                         (if negative then "-" else "") + digits + ".0"))
  {
    assert DropLeadingZeros(digits) == digits;
    assert ReprText(negative, digits, []) == (if negative then "-" else "") + digits + ".0";
    WholeFloat(negative, digits);
  }

  /** The float of the single digit "0" is zero. */
  lemma ZeroDigitFloat(negative: bool)
    ensures FloatOfParts(negative, DropLeadingZeros("0"), []) ==
              Some(Float(if negative then -(DigitsValue("0") as real) else DigitsValue("0") as real,
                         (if negative then "-" else "") + "0" + ".0"))
  {
    assert DropLeadingZeros("0") == [];
    assert ReprText(negative, [], []) == (if negative then "-" else "") + "0" + ".0";
    WholeFloat(negative, []);
  }

  /** The sign of `i` before digits standing for its magnitude reads as `i`, `repr` adding ".0". */
  lemma IntLiteralFloat(i: int, digits: string)
    requires AllDigits(digits) && digits != [] && digits[0] != '0' && |digits| <= 15
    requires DigitsValue(digits) == (if i < 0 then -i else i)
    ensures FloatFromText((if i < 0 then "-" else "") + digits) ==
              Some(Float(i as real, (if i < 0 then "-" else "") + digits + ".0"))
  {
    NonzeroLiteralFloat(i < 0, digits);
  }

  /**
   * A string holding a non-zero integer of at most 15 digits reads as the
   * same float as the integer (zero is `ZeroLiteralFloat`).
   */
  lemma IntFloatTextAgree(i: int)
    requires -(Pow10(15) as int) < i < Pow10(15) && i != 0
    ensures AsFloat(JStr(IntToString(i))) == Some(IntToFloat(i))
  {
    IntToStringShape(i);
    var t := IntToString(i);
    IntLiteralFloat(i, NatToString(if i < 0 then -i else i));
    assert FloatFromText(t) == Some(Float(i as real, t + ".0"));
  }

  /** The strings read as `False` and as `True`, compared after ASCII lower-casing. */
  const FalseWords: set<string> := {"0", "off", "f", "false", "n", "no"}
  const TrueWords: set<string> := {"1", "on", "t", "true", "y", "yes"}

  function AsBool(j: Json): (r: Option<bool>)
    ensures j.JBool? ==> r == Some(j.b)
    // A number is accepted when it is 0 or 1, and reads as true when it is 1.
    ensures IsNumber(j) ==> (r.Some? <==> NumberValue(j) == 0.0 || NumberValue(j) == 1.0)
    ensures IsNumber(j) && r.Some? ==> (r.value <==> NumberValue(j) == 1.0)
    // A string is accepted when it is one of the words in any letter case, and reads as true for the true words.
    ensures j.JStr? ==> (r.Some? <==> Lower(j.s) in TrueWords || Lower(j.s) in FalseWords)
    ensures j.JStr? && r.Some? ==> (r.value <==> Lower(j.s) in TrueWords)
    ensures !IsNumber(j) && !j.JStr? ==> r.None?
  {
    match j
    case JBool(b) => Some(b)
    case JInt(i) => if i == 0 then Some(false) else if i == 1 then Some(true) else None
    case JFloat(v, _) => if v == 0.0 then Some(false) else if v == 1.0 then Some(true) else None
    case JStr(s) => if Lower(s) in FalseWords then Some(false) else if Lower(s) in TrueWords then Some(true) else None
    case _ => None
  }

  /** Letter case does not change how a string reads as a bool. */
  lemma BoolTextIgnoresCase(s: string)
    ensures AsBool(JStr(Upper(s))) == AsBool(JStr(s))
  {
    assert Lower(Upper(s)) == Lower(s);
  }

  /** `str(b)` reads back as `b`. */
  lemma BoolTextRoundTrip(b: bool)
    ensures AsBool(JStr(Repr(JBool(b)))) == Some(b)
  {
    if b {
      assert Lower("True") == "true";
    } else {
      assert Lower("False") == "false";
    }
  }

  predicate AllStr(items: seq<Json>) {
    forall i :: 0 <= i < |items| ==> items[i].JStr?
  }

  function AsStrList(j: Json): (r: Option<seq<string>>)
    ensures r.Some? <==> j.JArray? && AllStr(j.items)
    ensures r.Some? ==> |r.value| == |j.items| && forall i :: 0 <= i < |r.value| ==> j.items[i] == JStr(r.value[i])
  {
    if j.JArray? && AllStr(j.items) then Some(seq(|j.items|, i requires 0 <= i < |j.items| => j.items[i].s))
    else None
  }

  lemma StrListRoundTrip(xs: seq<string>)
    ensures AsStrList(StrList(xs)) == Some(xs)
  {
    var r := AsStrList(StrList(xs));
    assert r.Some?;
    assert r.value == xs;
  }

  function AsOptStr(j: Json): (r: Option<Option<string>>)
    ensures r.Some? <==> j.JStr? || j.JNull?
  {
    match j
    case JNull => Some(None)
    case JStr(s) => Some(Some(s))
    case _ => None
  }

  function AsDict(j: Json): (r: Option<Fields>)
    ensures r.Some? <==> j.JObject?
  {
    if j.JObject? then Some(j.fields) else None
  }

  predicate AllDicts(items: seq<Json>) {
    forall i :: 0 <= i < |items| ==> items[i].JObject?
  }

  function AsDictList(j: Json): (r: Option<seq<Fields>>)
    ensures r.Some? <==> j.JArray? && AllDicts(j.items)
  {
    if j.JArray? && AllDicts(j.items) then Some(seq(|j.items|, i requires 0 <= i < |j.items| => j.items[i].fields))
    else None
  }

  function DictList(ds: seq<Fields>): (r: Json)
    ensures AsDictList(r) == Some(ds)
  {
    var r := JArray(seq(|ds|, i requires 0 <= i < |ds| => JObject(ds[i])));
    assert AsDictList(r).value == ds;
    r
  }

  function FloatJson(f: Float): Json {
    JFloat(f.value, f.repr)
  }

  function OptStrJson(o: Option<string>): (r: Json)
    ensures AsOptStr(r) == Some(o)
  {
    match o
    case None => JNull
    case Some(s) => JStr(s)
  }

  /** A required field: missing or ill-typed values are validation errors. */
  function Required<T>(f: Fields, model: string, key: string, conv: Json -> Option<T>): (r: Result<T, PyError>)
    ensures r.Success? <==> HasKey(f, key) && conv(Get(f, key).value).Some?
    ensures r.Success? ==> r.value == conv(Get(f, key).value).value
  {
    match Get(f, key)
    case None => Failure(ValidationError(model, key, "Field required"))
    case Some(v) =>
      match conv(v)
      case None => Failure(ValidationError(model, key, "Input should be of the declared type"))
      case Some(x) => Success(x)
  }

  /** A defaulted field: the default when absent, a validation error when ill-typed. */
  function Defaulted<T>(f: Fields, model: string, key: string, conv: Json -> Option<T>, default: T): (r: Result<T, PyError>)
    ensures !HasKey(f, key) ==> r == Success(default)
    ensures HasKey(f, key) ==> (r.Success? <==> conv(Get(f, key).value).Some?)
    ensures HasKey(f, key) && r.Success? ==> r.value == conv(Get(f, key).value).value
  {
    match Get(f, key)
    case None => Success(default)
    case Some(v) =>
      match conv(v)
      case None => Failure(ValidationError(model, key, "Input should be of the declared type"))
      case Some(x) => Success(x)
  }

  /** `Model(**data)` needs a mapping. */
  function AsMapping(j: Json): (r: Result<Fields, PyError>)
    ensures r.Success? <==> j.JObject?
    ensures j.JObject? ==> r.value == j.fields
  {
    if j.JObject? then Success(j.fields)
    else Failure(TypeError("argument after ** must be a mapping, not " + TypeName(j)))
  }

  /** A present field whose value converts decodes as that value. */
  lemma RequiredFrom<T>(f: Fields, model: string, key: string, conv: Json -> Option<T>, j: Json, v: T)
    requires Get(f, key) == Some(j) && conv(j) == Some(v)
    ensures Required(f, model, key, conv) == Success(v)
  {
  }

  lemma DefaultedFrom<T>(f: Fields, model: string, key: string, conv: Json -> Option<T>, default: T, j: Json, v: T)
    requires Get(f, key) == Some(j) && conv(j) == Some(v)
    ensures Defaulted(f, model, key, conv, default) == Success(v)
  {
  }

  /** A key whose length or first letter differs from every key present is absent. */
  lemma AbsentKey(f: Fields, k: string)
    requires k != [] && forall i :: 0 <= i < |f| ==> |f[i].0| != |k| || f[i].0[0] != k[0]
    ensures !HasKey(f, k)
  {
  }

  // ---------------------------------------------------------------------
  // Timeline
  // ---------------------------------------------------------------------

  function DecodeTimeline(j: Json): (r: Result<Timeline, PyError>)
    ensures r.Success? ==> j.JObject? && HasKey(j.fields, "value") && HasKey(j.fields, "unit")
  {
    var f :- AsMapping(j);
    var value :- Required(f, "Timeline", "value", AsInt);
    var unit :- Required(f, "Timeline", "unit", AsStr);
    Success(Timeline(value, unit))
  }

  function TimelineJson(t: Timeline): Json {
    JObject([("value", JInt(t.value)), ("unit", JStr(t.unit))])
  }

  function AsTimeline(j: Json): Option<Timeline> {
    match DecodeTimeline(j)
    case Success(t) => Some(t)
    case Failure(_) => None
  }

  lemma TimelineRoundTrip(t: Timeline)
    ensures DecodeTimeline(TimelineJson(t)) == Success(t)
  {
    var f := TimelineJson(t).fields;
    GetDistinct(f, 0);
    GetDistinct(f, 1);
  }

  // ---------------------------------------------------------------------
  // UserProfile
  // ---------------------------------------------------------------------

  function DecodeUserProfile(j: Json): (r: Result<UserProfile, PyError>)
    ensures r.Success? ==> j.JObject? && HasKey(j.fields, "academic_program") && HasKey(j.fields, "field_of_study")
                           && HasKey(j.fields, "research_area") && HasKey(j.fields, "weekly_hours")
                           && HasKey(j.fields, "total_timeline")
  {
    var f :- AsMapping(j);
    var program :- Required(f, "UserProfile", "academic_program", AsStr);
    var field :- Required(f, "UserProfile", "field_of_study", AsStr);
    var area :- Required(f, "UserProfile", "research_area", AsStr);
    var hours :- Required(f, "UserProfile", "weekly_hours", AsInt);
    var timeline :- Required(f, "UserProfile", "total_timeline", AsTimeline);
    var existing :- Defaulted(f, "UserProfile", "existing_skills", AsStrList, []);
    var missing :- Defaulted(f, "UserProfile", "missing_skills", AsStrList, []);
    var constraints :- Defaulted(f, "UserProfile", "constraints", AsStrList, []);
    var context :- Defaulted(f, "UserProfile", "additional_context", AsOptStr, None);
    Success(UserProfile(program, field, area, hours, timeline, existing, missing, constraints, context))
  }

  function UserProfileJson(p: UserProfile): Json {
    JObject([
      ("academic_program", JStr(p.academicProgram)),
      ("field_of_study", JStr(p.fieldOfStudy)),
      ("research_area", JStr(p.researchArea)),
      ("weekly_hours", JInt(p.weeklyHours)),
      ("total_timeline", TimelineJson(p.totalTimeline)),
      ("existing_skills", StrList(p.existingSkills)),
      ("missing_skills", StrList(p.missingSkills)),
      ("constraints", StrList(p.constraints)),
      ("additional_context", OptStrJson(p.additionalContext))])
  }

  lemma UserProfileKeysDistinct(p: UserProfile)
    ensures DistinctKeys(UserProfileJson(p).fields)
  {
  }

  /** The five required profile fields decode to the given values. */
  predicate ProfileRequiredFields(f: Fields, program: string, field: string, area: string, hours: int, t: Timeline) {
    && Required(f, "UserProfile", "academic_program", AsStr) == Success(program)
    && Required(f, "UserProfile", "field_of_study", AsStr) == Success(field)
    && Required(f, "UserProfile", "research_area", AsStr) == Success(area)
    && Required(f, "UserProfile", "weekly_hours", AsInt) == Success(hours)
    && Required(f, "UserProfile", "total_timeline", AsTimeline) == Success(t)
  }

  /** The four defaulted profile fields decode to the given values. */
  predicate ProfileDefaultedFields(f: Fields, existing: seq<string>, missing: seq<string>, constraints: seq<string>,
                                   context: Option<string>) {
    && Defaulted(f, "UserProfile", "existing_skills", AsStrList, []) == Success(existing)
    && Defaulted(f, "UserProfile", "missing_skills", AsStrList, []) == Success(missing)
    && Defaulted(f, "UserProfile", "constraints", AsStrList, []) == Success(constraints)
    && Defaulted(f, "UserProfile", "additional_context", AsOptStr, None) == Success(context)
  }

  /** Nine decoded fields make a profile. */
  lemma DecodesUserProfile(f: Fields, p: UserProfile)
    requires ProfileRequiredFields(f, p.academicProgram, p.fieldOfStudy, p.researchArea, p.weeklyHours, p.totalTimeline)
    requires ProfileDefaultedFields(f, p.existingSkills, p.missingSkills, p.constraints, p.additionalContext)
    ensures DecodeUserProfile(JObject(f)) == Success(p)
  {
  }

  lemma UserProfileRoundTrip(p: UserProfile)
    ensures DecodeUserProfile(UserProfileJson(p)) == Success(p)
  {
    UserProfileRequiredFields(p);
    UserProfileDefaultedFields(p);
    DecodesUserProfile(UserProfileJson(p).fields, p);
  }

  /** Each key of a profile's dict holds the matching field's JSON. */
  lemma UserProfileGets(p: UserProfile)
    ensures var f := UserProfileJson(p).fields;
      && Get(f, "academic_program") == Some(JStr(p.academicProgram))
      && Get(f, "field_of_study") == Some(JStr(p.fieldOfStudy))
      && Get(f, "research_area") == Some(JStr(p.researchArea))
      && Get(f, "weekly_hours") == Some(JInt(p.weeklyHours))
      && Get(f, "total_timeline") == Some(TimelineJson(p.totalTimeline))
      && Get(f, "existing_skills") == Some(StrList(p.existingSkills))
      && Get(f, "missing_skills") == Some(StrList(p.missingSkills))
      && Get(f, "constraints") == Some(StrList(p.constraints))
      && Get(f, "additional_context") == Some(OptStrJson(p.additionalContext))
  {
    var f := UserProfileJson(p).fields;
    UserProfileKeysDistinct(p);
    GetDistinct(f, 0);
    GetDistinct(f, 1);
    GetDistinct(f, 2);
    GetDistinct(f, 3);
    GetDistinct(f, 4);
    GetDistinct(f, 5);
    GetDistinct(f, 6);
    GetDistinct(f, 7);
    GetDistinct(f, 8);
  }

  lemma UserProfileRequiredFields(p: UserProfile)
    ensures ProfileRequiredFields(UserProfileJson(p).fields, p.academicProgram, p.fieldOfStudy, p.researchArea,
                                  p.weeklyHours, p.totalTimeline)
  {
    var f := UserProfileJson(p).fields;
    UserProfileGets(p);
    RequiredFrom(f, "UserProfile", "academic_program", AsStr, JStr(p.academicProgram), p.academicProgram);
    RequiredFrom(f, "UserProfile", "field_of_study", AsStr, JStr(p.fieldOfStudy), p.fieldOfStudy);
    RequiredFrom(f, "UserProfile", "research_area", AsStr, JStr(p.researchArea), p.researchArea);
    RequiredFrom(f, "UserProfile", "weekly_hours", AsInt, JInt(p.weeklyHours), p.weeklyHours);
    TimelineRoundTrip(p.totalTimeline);
    RequiredFrom(f, "UserProfile", "total_timeline", AsTimeline, TimelineJson(p.totalTimeline), p.totalTimeline);
  }

  lemma UserProfileDefaultedFields(p: UserProfile)
    ensures ProfileDefaultedFields(UserProfileJson(p).fields, p.existingSkills, p.missingSkills, p.constraints,
                                   p.additionalContext)
  {
    var f := UserProfileJson(p).fields;
    UserProfileGets(p);
    StrListRoundTrip(p.existingSkills);
    DefaultedFrom(f, "UserProfile", "existing_skills", AsStrList, [], StrList(p.existingSkills), p.existingSkills);
    StrListRoundTrip(p.missingSkills);
    DefaultedFrom(f, "UserProfile", "missing_skills", AsStrList, [], StrList(p.missingSkills), p.missingSkills);
    StrListRoundTrip(p.constraints);
    DefaultedFrom(f, "UserProfile", "constraints", AsStrList, [], StrList(p.constraints), p.constraints);
    DefaultedFrom(f, "UserProfile", "additional_context", AsOptStr, None, OptStrJson(p.additionalContext), p.additionalContext);
  }

  /** The five required fields suffice; the lists default to empty and the context to None. */
  lemma UserProfileDefaults(program: string, field: string, area: string, hours: int, t: Timeline)
    ensures DecodeUserProfile(JObject([
              ("academic_program", JStr(program)), ("field_of_study", JStr(field)),
              ("research_area", JStr(area)), ("weekly_hours", JInt(hours)),
              ("total_timeline", TimelineJson(t))]))
            == Success(UserProfile(program, field, area, hours, t, [], [], [], None))
  {
    var f := RequiredOnly(program, field, area, hours, t);
    RequiredOnlyDecodes(program, field, area, hours, t);
    RequiredOnlyDefaults(program, field, area, hours, t);
    DecodesUserProfile(f, UserProfile(program, field, area, hours, t, [], [], [], None));
  }

  /** A profile dict holding the five required fields and nothing else. */
  function RequiredOnly(program: string, field: string, area: string, hours: int, t: Timeline): Fields {
    [("academic_program", JStr(program)), ("field_of_study", JStr(field)),
     ("research_area", JStr(area)), ("weekly_hours", JInt(hours)),
     ("total_timeline", TimelineJson(t))]
  }

  lemma RequiredOnlyDecodes(program: string, field: string, area: string, hours: int, t: Timeline)
    ensures ProfileRequiredFields(RequiredOnly(program, field, area, hours, t), program, field, area, hours, t)
  {
    var f := RequiredOnly(program, field, area, hours, t);
    GetDistinct(f, 0);
    GetDistinct(f, 1);
    GetDistinct(f, 2);
    GetDistinct(f, 3);
    GetDistinct(f, 4);
    TimelineRoundTrip(t);
  }

  lemma RequiredOnlyDefaults(program: string, field: string, area: string, hours: int, t: Timeline)
    ensures ProfileDefaultedFields(RequiredOnly(program, field, area, hours, t), [], [], [], None)
  {
    var f := RequiredOnly(program, field, area, hours, t);
    AbsentKey(f, "existing_skills");
    AbsentKey(f, "missing_skills");
    AbsentKey(f, "constraints");
    AbsentKey(f, "additional_context");
  }

  // ---------------------------------------------------------------------
  // LiteratureEntry
  // ---------------------------------------------------------------------

  function DecodeLiteratureEntry(j: Json): (r: Result<LiteratureEntry, PyError>)
    ensures r.Success? ==> j.JObject? && HasKey(j.fields, "title") && HasKey(j.fields, "url")
                           && HasKey(j.fields, "relevance_note")
  {
    var f :- AsMapping(j);
    var title :- Required(f, "LiteratureEntry", "title", AsStr);
    var url :- Required(f, "LiteratureEntry", "url", AsStr);
    var note :- Required(f, "LiteratureEntry", "relevance_note", AsStr);
    var source :- Defaulted(f, "LiteratureEntry", "source", AsOptStr, None);
    Success(LiteratureEntry(title, url, note, source))
  }

  function LiteratureEntryJson(e: LiteratureEntry): Json {
    JObject([("title", JStr(e.title)), ("url", JStr(e.url)), ("relevance_note", JStr(e.relevanceNote)),
             ("source", OptStrJson(e.source))])
  }

  lemma LiteratureEntryRoundTrip(e: LiteratureEntry)
    ensures DecodeLiteratureEntry(LiteratureEntryJson(e)) == Success(e)
  {
    var f := LiteratureEntryJson(e).fields;
    GetDistinct(f, 0);
    GetDistinct(f, 1);
    GetDistinct(f, 2);
    GetDistinct(f, 3);
    assert Required(f, "LiteratureEntry", "title", AsStr) == Success(e.title);
    assert Required(f, "LiteratureEntry", "url", AsStr) == Success(e.url);
    assert Required(f, "LiteratureEntry", "relevance_note", AsStr) == Success(e.relevanceNote);
    assert Defaulted(f, "LiteratureEntry", "source", AsOptStr, None) == Success(e.source);
  }

  /** A list of literature entries: every item must decode. */
  function AsLiteratureList(j: Json): (r: Option<seq<LiteratureEntry>>)
    ensures r.Some? ==> j.JArray? && |r.value| == |j.items|
  {
    if j.JArray? then DecodeEntries(j.items) else None
  }

  function DecodeEntries(items: seq<Json>): (r: Option<seq<LiteratureEntry>>)
    ensures r.Some? ==> |r.value| == |items|
    ensures r.Some? ==> forall i :: 0 <= i < |items| ==> DecodeLiteratureEntry(items[i]) == Success(r.value[i])
  {
    if items == [] then Some([])
    else
      match DecodeLiteratureEntry(items[0])
      case Failure(_) => None
      case Success(e) =>
        match DecodeEntries(items[1..])
        case None => None
        case Some(rest) => Some([e] + rest)
  }

  function LiteratureListJson(es: seq<LiteratureEntry>): (r: Json)
    ensures r.JArray? && |r.items| == |es|
  {
    JArray(seq(|es|, i requires 0 <= i < |es| => LiteratureEntryJson(es[i])))
  }

  lemma {:induction false} LiteratureListRoundTrip(es: seq<LiteratureEntry>)
    ensures AsLiteratureList(LiteratureListJson(es)) == Some(es)
  {
    EntriesRoundTrip(es);
  }

  lemma {:induction false} EntriesRoundTrip(es: seq<LiteratureEntry>)
    ensures DecodeEntries(LiteratureListJson(es).items) == Some(es)
  {
    var items := LiteratureListJson(es).items;
    if es != [] {
      ListJsonSplits(es);
      LiteratureEntryRoundTrip(es[0]);
      EntriesRoundTrip(es[1..]);
      assert DecodeEntries(items) == Some([es[0]] + es[1..]);
      assert [es[0]] + es[1..] == es;
    }
  }

  lemma ListJsonSplits(es: seq<LiteratureEntry>)
    requires es != []
    ensures LiteratureListJson(es).items[0] == LiteratureEntryJson(es[0])
    ensures LiteratureListJson(es).items[1..] == LiteratureListJson(es[1..]).items
  {
    var items := LiteratureListJson(es).items;
    var rest := LiteratureListJson(es[1..]).items;
    assert forall i :: 0 <= i < |rest| ==> items[1..][i] == rest[i];
  }

  // ---------------------------------------------------------------------
  // ProblemDefinition
  // ---------------------------------------------------------------------

  function DecodeProblemDefinition(j: Json): (r: Result<ProblemDefinition, PyError>)
    ensures r.Success? ==> j.JObject? && HasKey(j.fields, "problem_statement")
                           && HasKey(j.fields, "main_research_question")
  {
    var f :- AsMapping(j);
    var statement :- Required(f, "ProblemDefinition", "problem_statement", AsStr);
    var question :- Required(f, "ProblemDefinition", "main_research_question", AsStr);
    var secondary :- Defaulted(f, "ProblemDefinition", "secondary_questions", AsStrList, []);
    var variables :- Defaulted(f, "ProblemDefinition", "key_variables", AsStrList, []);
    var literature :- Defaulted(f, "ProblemDefinition", "preliminary_literature", AsLiteratureList, []);
    var history :- Defaulted(f, "ProblemDefinition", "refinement_history", AsDictList, []);
    Success(ProblemDefinition(statement, question, secondary, variables, literature, history))
  }

  function ProblemDefinitionJson(p: ProblemDefinition): Json {
    JObject([
      ("problem_statement", JStr(p.problemStatement)),
      ("main_research_question", JStr(p.mainResearchQuestion)),
      ("secondary_questions", StrList(p.secondaryQuestions)),
      ("key_variables", StrList(p.keyVariables)),
      ("preliminary_literature", LiteratureListJson(p.preliminaryLiterature)),
      ("refinement_history", DictList(p.refinementHistory))])
  }

  lemma ProblemDefinitionRoundTrip(p: ProblemDefinition)
    ensures DecodeProblemDefinition(ProblemDefinitionJson(p)) == Success(p)
  {
    var f := ProblemDefinitionJson(p).fields;
    assert DistinctKeys(f);
    GetDistinct(f, 0);
    GetDistinct(f, 1);
    GetDistinct(f, 2);
    GetDistinct(f, 3);
    GetDistinct(f, 4);
    GetDistinct(f, 5);
    assert Required(f, "ProblemDefinition", "problem_statement", AsStr) == Success(p.problemStatement);
    assert Required(f, "ProblemDefinition", "main_research_question", AsStr) == Success(p.mainResearchQuestion);
    StrListRoundTrip(p.secondaryQuestions);
    assert Defaulted(f, "ProblemDefinition", "secondary_questions", AsStrList, []) == Success(p.secondaryQuestions);
    StrListRoundTrip(p.keyVariables);
    assert Defaulted(f, "ProblemDefinition", "key_variables", AsStrList, []) == Success(p.keyVariables);
    LiteratureListRoundTrip(p.preliminaryLiterature);
    assert Defaulted(f, "ProblemDefinition", "preliminary_literature", AsLiteratureList, []) == Success(p.preliminaryLiterature);
    assert Defaulted(f, "ProblemDefinition", "refinement_history", AsDictList, []) == Success(p.refinementHistory);
  }

  /** Statement and question are the only required fields; the four lists default to empty. */
  lemma ProblemDefinitionDefaults(statement: string, question: string)
    ensures DecodeProblemDefinition(JObject([("problem_statement", JStr(statement)),
                                             ("main_research_question", JStr(question))]))
            == Success(ProblemDefinition(statement, question, [], [], [], []))
  {
    var f := [("problem_statement", JStr(statement)), ("main_research_question", JStr(question))];
    GetDistinct(f, 0);
    GetDistinct(f, 1);
    assert Required(f, "ProblemDefinition", "problem_statement", AsStr) == Success(statement);
    assert Required(f, "ProblemDefinition", "main_research_question", AsStr) == Success(question);
    assert !HasKey(f, "secondary_questions");
    assert !HasKey(f, "key_variables");
    assert !HasKey(f, "preliminary_literature");
    assert !HasKey(f, "refinement_history");
  }

  // ---------------------------------------------------------------------
  // ResearchObjectives
  // ---------------------------------------------------------------------

  function DecodeResearchObjectives(j: Json): (r: Result<ResearchObjectives, PyError>)
    ensures r.Success? ==> j.JObject? && HasKey(j.fields, "general_objective")
                           && HasKey(j.fields, "specific_objectives")
  {
    var f :- AsMapping(j);
    var general :- Required(f, "ResearchObjectives", "general_objective", AsStr);
    var specific :- Required(f, "ResearchObjectives", "specific_objectives", AsStrList);
    var feasibility :- Defaulted(f, "ResearchObjectives", "feasibility_notes", AsDict, []);
    var alignment :- Defaulted(f, "ResearchObjectives", "alignment_check", AsDict, []);
    Success(ResearchObjectives(general, specific, feasibility, alignment))
  }

  function ResearchObjectivesJson(o: ResearchObjectives): Json {
    JObject([
      ("general_objective", JStr(o.generalObjective)),
      ("specific_objectives", StrList(o.specificObjectives)),
      ("feasibility_notes", JObject(o.feasibilityNotes)),
      ("alignment_check", JObject(o.alignmentCheck))])
  }

  lemma ResearchObjectivesRoundTrip(o: ResearchObjectives)
    ensures DecodeResearchObjectives(ResearchObjectivesJson(o)) == Success(o)
  {
    var f := ResearchObjectivesJson(o).fields;
    GetDistinct(f, 0);
    GetDistinct(f, 1);
    GetDistinct(f, 2);
    GetDistinct(f, 3);
    assert Required(f, "ResearchObjectives", "general_objective", AsStr) == Success(o.generalObjective);
    StrListRoundTrip(o.specificObjectives);
    assert Required(f, "ResearchObjectives", "specific_objectives", AsStrList) == Success(o.specificObjectives);
    assert Defaulted(f, "ResearchObjectives", "feasibility_notes", AsDict, []) == Success(o.feasibilityNotes);
    assert Defaulted(f, "ResearchObjectives", "alignment_check", AsDict, []) == Success(o.alignmentCheck);
  }

  lemma ResearchObjectivesDefaults(general: string, specific: seq<string>)
    ensures DecodeResearchObjectives(JObject([("general_objective", JStr(general)),
                                              ("specific_objectives", StrList(specific))]))
            == Success(ResearchObjectives(general, specific, [], []))
  {
    var f := [("general_objective", JStr(general)), ("specific_objectives", StrList(specific))];
    GetDistinct(f, 0);
    GetDistinct(f, 1);
    StrListRoundTrip(specific);
    assert Required(f, "ResearchObjectives", "general_objective", AsStr) == Success(general);
    assert Required(f, "ResearchObjectives", "specific_objectives", AsStrList) == Success(specific);
    assert !HasKey(f, "feasibility_notes") && !HasKey(f, "alignment_check");
  }

  // ---------------------------------------------------------------------
  // MethodologyRecommendation
  // ---------------------------------------------------------------------

  function DecodeMethodologyRecommendation(j: Json): (r: Result<MethodologyRecommendation, PyError>)
    ensures r.Success? ==> j.JObject? && HasKey(j.fields, "recommended_methodology")
                           && HasKey(j.fields, "methodology_type") && HasKey(j.fields, "justification")
  {
    var f :- AsMapping(j);
    var methodology :- Required(f, "MethodologyRecommendation", "recommended_methodology", AsStr);
    var kind :- Required(f, "MethodologyRecommendation", "methodology_type", AsStr);
    var justification :- Required(f, "MethodologyRecommendation", "justification", AsStr);
    var skills :- Defaulted(f, "MethodologyRecommendation", "required_skills", AsStrList, []);
    var fit :- Defaulted(f, "MethodologyRecommendation", "timeline_fit", AsDict, []);
    var alternatives :- Defaulted(f, "MethodologyRecommendation", "alternative_methodologies", AsDictList, []);
    Success(MethodologyRecommendation(methodology, kind, justification, skills, fit, alternatives))
  }

  function MethodologyRecommendationJson(m: MethodologyRecommendation): Json {
    JObject([
      ("recommended_methodology", JStr(m.recommendedMethodology)),
      ("methodology_type", JStr(m.methodologyType)),
      ("justification", JStr(m.justification)),
      ("required_skills", StrList(m.requiredSkills)),
      ("timeline_fit", JObject(m.timelineFit)),
      ("alternative_methodologies", DictList(m.alternativeMethodologies))])
  }

  lemma MethodologyRecommendationRoundTrip(m: MethodologyRecommendation)
    ensures DecodeMethodologyRecommendation(MethodologyRecommendationJson(m)) == Success(m)
  {
    var f := MethodologyRecommendationJson(m).fields;
    GetDistinct(f, 0);
    GetDistinct(f, 1);
    GetDistinct(f, 2);
    GetDistinct(f, 3);
    GetDistinct(f, 4);
    GetDistinct(f, 5);
    assert Required(f, "MethodologyRecommendation", "recommended_methodology", AsStr) == Success(m.recommendedMethodology);
    assert Required(f, "MethodologyRecommendation", "methodology_type", AsStr) == Success(m.methodologyType);
    assert Required(f, "MethodologyRecommendation", "justification", AsStr) == Success(m.justification);
    StrListRoundTrip(m.requiredSkills);
    assert Defaulted(f, "MethodologyRecommendation", "required_skills", AsStrList, []) == Success(m.requiredSkills);
    assert Defaulted(f, "MethodologyRecommendation", "timeline_fit", AsDict, []) == Success(m.timelineFit);
    assert Defaulted(f, "MethodologyRecommendation", "alternative_methodologies", AsDictList, []) == Success(m.alternativeMethodologies);
  }

  /** Any string is accepted as the methodology type. */
  lemma MethodologyTypeIsFree(methodology: string, kind: string, justification: string)
    ensures DecodeMethodologyRecommendation(JObject([
              ("recommended_methodology", JStr(methodology)), ("methodology_type", JStr(kind)),
              ("justification", JStr(justification))]))
            == Success(MethodologyRecommendation(methodology, kind, justification, [], [], []))
  {
    var f := [("recommended_methodology", JStr(methodology)), ("methodology_type", JStr(kind)),
              ("justification", JStr(justification))];
    GetDistinct(f, 0);
    GetDistinct(f, 1);
    GetDistinct(f, 2);
    assert Required(f, "MethodologyRecommendation", "recommended_methodology", AsStr) == Success(methodology);
    assert Required(f, "MethodologyRecommendation", "methodology_type", AsStr) == Success(kind);
    assert Required(f, "MethodologyRecommendation", "justification", AsStr) == Success(justification);
    assert !HasKey(f, "required_skills");
    assert !HasKey(f, "timeline_fit");
    assert !HasKey(f, "alternative_methodologies");
  }

  // ---------------------------------------------------------------------
  // DataCollectionPlan
  // ---------------------------------------------------------------------

  function DecodeDataCollectionPlan(j: Json): (r: Result<DataCollectionPlan, PyError>)
    ensures r.Success? ==> j.JObject? && HasKey(j.fields, "collection_techniques")
                           && HasKey(j.fields, "estimated_sample_size")
  {
    var f :- AsMapping(j);
    var techniques :- Required(f, "DataCollectionPlan", "collection_techniques", AsStrList);
    var tools :- Defaulted(f, "DataCollectionPlan", "recommended_tools", AsDictList, []);
    var sources :- Defaulted(f, "DataCollectionPlan", "data_sources", AsStrList, []);
    var sampleSize :- Required(f, "DataCollectionPlan", "estimated_sample_size", AsStr);
    var timeline :- Defaulted(f, "DataCollectionPlan", "timeline_breakdown", AsDict, []);
    var resources :- Defaulted(f, "DataCollectionPlan", "resource_requirements", AsStrList, []);
    Success(DataCollectionPlan(techniques, tools, sources, sampleSize, timeline, resources))
  }

  function DataCollectionPlanJson(d: DataCollectionPlan): Json {
    JObject([
      ("collection_techniques", StrList(d.collectionTechniques)),
      ("recommended_tools", DictList(d.recommendedTools)),
      ("data_sources", StrList(d.dataSources)),
      ("estimated_sample_size", JStr(d.estimatedSampleSize)),
      ("timeline_breakdown", JObject(d.timelineBreakdown)),
      ("resource_requirements", StrList(d.resourceRequirements))])
  }

  lemma DataCollectionPlanRoundTrip(d: DataCollectionPlan)
    ensures DecodeDataCollectionPlan(DataCollectionPlanJson(d)) == Success(d)
  {
    var f := DataCollectionPlanJson(d).fields;
    GetDistinct(f, 0);
    GetDistinct(f, 1);
    GetDistinct(f, 2);
    GetDistinct(f, 3);
    GetDistinct(f, 4);
    GetDistinct(f, 5);
    StrListRoundTrip(d.collectionTechniques);
    assert Required(f, "DataCollectionPlan", "collection_techniques", AsStrList) == Success(d.collectionTechniques);
    assert Defaulted(f, "DataCollectionPlan", "recommended_tools", AsDictList, []) == Success(d.recommendedTools);
    StrListRoundTrip(d.dataSources);
    assert Defaulted(f, "DataCollectionPlan", "data_sources", AsStrList, []) == Success(d.dataSources);
    assert Required(f, "DataCollectionPlan", "estimated_sample_size", AsStr) == Success(d.estimatedSampleSize);
    assert Defaulted(f, "DataCollectionPlan", "timeline_breakdown", AsDict, []) == Success(d.timelineBreakdown);
    StrListRoundTrip(d.resourceRequirements);
    assert Defaulted(f, "DataCollectionPlan", "resource_requirements", AsStrList, []) == Success(d.resourceRequirements);
  }

  /** The sample size is a string: a JSON number there is rejected. */
  lemma SampleSizeMustBeString(techniques: seq<string>, n: int)
    ensures DecodeDataCollectionPlan(JObject([("collection_techniques", StrList(techniques)),
                                              ("estimated_sample_size", JInt(n))])).Failure?
  {
    var f := [("collection_techniques", StrList(techniques)), ("estimated_sample_size", JInt(n))];
    GetDistinct(f, 0);
    GetDistinct(f, 1);
  }

  lemma DataCollectionPlanDefaults(techniques: seq<string>, size: string)
    ensures DecodeDataCollectionPlan(JObject([("collection_techniques", StrList(techniques)),
                                              ("estimated_sample_size", JStr(size))]))
            == Success(DataCollectionPlan(techniques, [], [], size, [], []))
  {
    var f := [("collection_techniques", StrList(techniques)), ("estimated_sample_size", JStr(size))];
    GetDistinct(f, 0);
    GetDistinct(f, 1);
    StrListRoundTrip(techniques);
    assert Required(f, "DataCollectionPlan", "collection_techniques", AsStrList) == Success(techniques);
    assert Required(f, "DataCollectionPlan", "estimated_sample_size", AsStr) == Success(size);
    assert !HasKey(f, "recommended_tools");
    assert !HasKey(f, "data_sources");
    assert !HasKey(f, "timeline_breakdown");
    assert !HasKey(f, "resource_requirements");
  }

  // ---------------------------------------------------------------------
  // QualityValidation
  // ---------------------------------------------------------------------

  function DecodeQualityValidation(j: Json): (r: Result<QualityValidation, PyError>)
    ensures r.Success? ==> j.JObject? && HasKey(j.fields, "validation_passed")
                           && HasKey(j.fields, "coherence_score") && HasKey(j.fields, "feasibility_score")
                           && HasKey(j.fields, "overall_quality_score") && HasKey(j.fields, "requires_refinement")
  {
    var f :- AsMapping(j);
    var passed :- Required(f, "QualityValidation", "validation_passed", AsBool);
    var scores :- DecodeScores(f);
    var (coherence, feasibility, overall) := scores;
    var issues :- Defaulted(f, "QualityValidation", "issues_identified", AsDictList, []);
    var recommendations :- Defaulted(f, "QualityValidation", "recommendations", AsStrList, []);
    var refine :- Required(f, "QualityValidation", "requires_refinement", AsBool);
    var targets :- Defaulted(f, "QualityValidation", "refinement_targets", AsStrList, []);
    Success(QualityValidation(passed, coherence, feasibility, overall, issues, recommendations, refine, targets))
  }

  /** The three required scores, in declaration order. */
  function DecodeScores(f: Fields): (r: Result<(Float, Float, Float), PyError>)
    ensures r.Success? ==> HasKey(f, "coherence_score") && HasKey(f, "feasibility_score")
                           && HasKey(f, "overall_quality_score")
  {
    var coherence :- Required(f, "QualityValidation", "coherence_score", AsFloat);
    var feasibility :- Required(f, "QualityValidation", "feasibility_score", AsFloat);
    var overall :- Required(f, "QualityValidation", "overall_quality_score", AsFloat);
    Success((coherence, feasibility, overall))
  }

  function QualityValidationJson(q: QualityValidation): Json {
    JObject([
      ("validation_passed", JBool(q.validationPassed)),
      ("coherence_score", FloatJson(q.coherenceScore)),
      ("feasibility_score", FloatJson(q.feasibilityScore)),
      ("overall_quality_score", FloatJson(q.overallQualityScore)),
      ("issues_identified", DictList(q.issuesIdentified)),
      ("recommendations", StrList(q.recommendations)),
      ("requires_refinement", JBool(q.requiresRefinement)),
      ("refinement_targets", StrList(q.refinementTargets))])
  }

  lemma QualityValidationKeysDistinct(q: QualityValidation)
    ensures DistinctKeys(QualityValidationJson(q).fields)
  {
  }

  /** Each key of the dump reads back its own field. */
  lemma QualityValidationFields(q: QualityValidation)
    ensures var f := QualityValidationJson(q).fields;
      && Get(f, "validation_passed") == Some(JBool(q.validationPassed))
      && Get(f, "coherence_score") == Some(FloatJson(q.coherenceScore))
      && Get(f, "feasibility_score") == Some(FloatJson(q.feasibilityScore))
      && Get(f, "overall_quality_score") == Some(FloatJson(q.overallQualityScore))
      && Get(f, "issues_identified") == Some(DictList(q.issuesIdentified))
      && Get(f, "recommendations") == Some(StrList(q.recommendations))
      && Get(f, "requires_refinement") == Some(JBool(q.requiresRefinement))
      && Get(f, "refinement_targets") == Some(StrList(q.refinementTargets))
  {
    var f := QualityValidationJson(q).fields;
    QualityValidationKeysDistinct(q);
    GetDistinct(f, 0);
    GetDistinct(f, 1);
    GetDistinct(f, 2);
    GetDistinct(f, 3);
    GetDistinct(f, 4);
    GetDistinct(f, 5);
    GetDistinct(f, 6);
    GetDistinct(f, 7);
  }

  /** A dict holding each field of `q` under its key decodes to `q`. */
  lemma DecodesQualityValidation(f: Fields, q: QualityValidation)
    requires Get(f, "validation_passed") == Some(JBool(q.validationPassed))
    requires Get(f, "coherence_score") == Some(FloatJson(q.coherenceScore))
    requires Get(f, "feasibility_score") == Some(FloatJson(q.feasibilityScore))
    requires Get(f, "overall_quality_score") == Some(FloatJson(q.overallQualityScore))
    requires Get(f, "issues_identified") == Some(DictList(q.issuesIdentified))
    requires Get(f, "recommendations") == Some(StrList(q.recommendations))
    requires Get(f, "requires_refinement") == Some(JBool(q.requiresRefinement))
    requires Get(f, "refinement_targets") == Some(StrList(q.refinementTargets))
    ensures DecodeQualityValidation(JObject(f)) == Success(q)
  {
    assert Required(f, "QualityValidation", "validation_passed", AsBool) == Success(q.validationPassed);
    assert Required(f, "QualityValidation", "coherence_score", AsFloat) == Success(q.coherenceScore);
    assert Required(f, "QualityValidation", "feasibility_score", AsFloat) == Success(q.feasibilityScore);
    assert Required(f, "QualityValidation", "overall_quality_score", AsFloat) == Success(q.overallQualityScore);
    assert DecodeScores(f) == Success((q.coherenceScore, q.feasibilityScore, q.overallQualityScore));
    assert Defaulted(f, "QualityValidation", "issues_identified", AsDictList, []) == Success(q.issuesIdentified);
    StrListRoundTrip(q.recommendations);
    assert Defaulted(f, "QualityValidation", "recommendations", AsStrList, []) == Success(q.recommendations);
    assert Required(f, "QualityValidation", "requires_refinement", AsBool) == Success(q.requiresRefinement);
    StrListRoundTrip(q.refinementTargets);
    assert Defaulted(f, "QualityValidation", "refinement_targets", AsStrList, []) == Success(q.refinementTargets);
  }

  lemma QualityValidationRoundTrip(q: QualityValidation)
    ensures DecodeQualityValidation(QualityValidationJson(q)) == Success(q)
  {
    QualityValidationFields(q);
    DecodesQualityValidation(QualityValidationJson(q).fields, q);
  }

  /** The record does not bound its scores: any numbers are accepted. */
  lemma ScoresAreUnbounded(coherence: real, feasibility: real, overall: real)
    ensures DecodeQualityValidation(JObject([
              ("validation_passed", JBool(false)),
              ("coherence_score", JFloat(coherence, "c")),
              ("feasibility_score", JFloat(feasibility, "f")),
              ("overall_quality_score", JFloat(overall, "o")),
              ("requires_refinement", JBool(true))])).Success?
  {
    var f := ScoresOnly(coherence, feasibility, overall);
    ScoresOnlyFields(coherence, feasibility, overall);
    assert Required(f, "QualityValidation", "validation_passed", AsBool) == Success(false);
    assert Required(f, "QualityValidation", "coherence_score", AsFloat) == Success(Float(coherence, "c"));
    assert Required(f, "QualityValidation", "feasibility_score", AsFloat) == Success(Float(feasibility, "f"));
    assert Required(f, "QualityValidation", "overall_quality_score", AsFloat) == Success(Float(overall, "o"));
    assert DecodeScores(f).Success?;
    assert Required(f, "QualityValidation", "requires_refinement", AsBool) == Success(true);
  }

  /** A validation dict with the passed flag, the three scores and the refinement flag only. */
  function ScoresOnly(coherence: real, feasibility: real, overall: real): Fields {
    [("validation_passed", JBool(false)), ("coherence_score", JFloat(coherence, "c")),
     ("feasibility_score", JFloat(feasibility, "f")), ("overall_quality_score", JFloat(overall, "o")),
     ("requires_refinement", JBool(true))]
  }

  lemma ScoresOnlyFields(coherence: real, feasibility: real, overall: real)
    ensures var f := ScoresOnly(coherence, feasibility, overall);
      && Get(f, "validation_passed") == Some(JBool(false))
      && Get(f, "coherence_score") == Some(JFloat(coherence, "c"))
      && Get(f, "feasibility_score") == Some(JFloat(feasibility, "f"))
      && Get(f, "overall_quality_score") == Some(JFloat(overall, "o"))
      && Get(f, "requires_refinement") == Some(JBool(true))
      && !HasKey(f, "issues_identified") && !HasKey(f, "recommendations") && !HasKey(f, "refinement_targets")
  {
    var f := ScoresOnly(coherence, feasibility, overall);
    GetDistinct(f, 0);
    GetDistinct(f, 1);
    GetDistinct(f, 2);
    GetDistinct(f, 3);
    GetDistinct(f, 4);
    AbsentKey(f, "issues_identified");
    AbsentKey(f, "recommendations");
    AbsentKey(f, "refinement_targets");
  }

  // ---------------------------------------------------------------------
  // InterviewState
  // ---------------------------------------------------------------------

  /** The interview's progress; the interviewer updates it in place. */
  class InterviewState {
    var currentQuestionIndex: int
    var profileData: Fields
    var isComplete: bool
    var conversationHistory: seq<seq<(string, string)>>

    constructor()
      ensures currentQuestionIndex == 0 && profileData == [] && !isComplete && conversationHistory == []
    {
      currentQuestionIndex := 0;
      profileData := [];
      isComplete := false;
      conversationHistory := [];
    }
  }
}

/**
 * Values produced by Python's `json.loads`, with the Python behaviour the
 * modelled code applies to them: dictionary lookup and assignment,
 * truthiness, `len`, `in`, `isinstance(x, (int, float))`, `int(x)` and `str(x)`.
 *
 * A dictionary is an association list in insertion order. Assigning a key
 * appends a binding; lookup takes the last binding and iteration lists each
 * key once at its first position, which is exactly how a Python dict behaves.
 */
module JsonData {
  import opened Wrappers
  import opened Text
  import opened Errors

  /** A float carries its value and Python's `repr` of it (the text `str()` shows). */
  datatype Json =
    | JNull
    | JBool(b: bool)
    | JInt(i: int)
    | JFloat(value: real, repr: string)
    | JStr(s: string)
    | JArray(items: seq<Json>)
    | JObject(fields: seq<(string, Json)>)

  type Fields = seq<(string, Json)>

  predicate HasKey(fields: Fields, k: string) {
    exists i :: 0 <= i < |fields| && fields[i].0 == k
  }

  /** `d.get(k)`: the value of the last binding of `k`. */
  function Get(fields: Fields, k: string): (r: Option<Json>)
    ensures r.Some? <==> HasKey(fields, k)
    ensures r.Some? ==> exists i :: 0 <= i < |fields| && fields[i] == (k, r.value)
  {
    if fields == [] then None
    else if fields[|fields| - 1].0 == k then Some(fields[|fields| - 1].1)
    else
      var r := Get(fields[..|fields| - 1], k);
      assert forall i :: 0 <= i < |fields| - 1 ==> fields[..|fields| - 1][i] == fields[i];
      r
  }

  /** With distinct keys, each binding is what lookup finds. */
  predicate DistinctKeys(fields: Fields) {
    forall a, b :: 0 <= a < b < |fields| ==> fields[a].0 != fields[b].0
  }

  lemma {:induction false} GetDistinct(fields: Fields, i: nat)
    requires i < |fields|
    requires DistinctKeys(fields)
    ensures Get(fields, fields[i].0) == Some(fields[i].1)
  {
    if i < |fields| - 1 {
      var init := fields[..|fields| - 1];
      assert init[i] == fields[i];
      GetDistinct(init, i);
    }
  }

  /** `d[k]`: the value, a `KeyError` for a missing key, a `TypeError` on a non-dict. */
  function Subscript(j: Json, k: string): (r: Result<Json, PyError>)
    ensures j.JObject? && HasKey(j.fields, k) ==> r == Success(Get(j.fields, k).value)
    ensures j.JObject? && !HasKey(j.fields, k) ==> r == Failure(KeyError(k))
    ensures !j.JObject? ==> r.Failure? && r.error.TypeError?
  {
    match j
    case JObject(fields) =>
      (match Get(fields, k)
       case Some(v) => Success(v)
       case None => Failure(KeyError(k)))
    case JStr(_) => Failure(TypeError("string indices must be integers, not 'str'"))
    case JArray(_) => Failure(TypeError("list indices must be integers or slices, not str"))
    case _ => Failure(TypeError("'" + TypeName(j) + "' object is not subscriptable"))
  }

  /** Python's `for x in j`: list items, dict keys, or one-character strings. */
  function Iterate(j: Json): (r: Result<seq<Json>, PyError>)
    ensures j.JArray? ==> r == Success(j.items)
    ensures r.Success? <==> j.JArray? || j.JObject? || j.JStr?
  {
    match j
    case JArray(items) => Success(items)
    case JObject(fields) =>
      var ks := Keys(fields);
      Success(seq(|ks|, i requires 0 <= i < |ks| => JStr(ks[i])))
    case JStr(s) => Success(seq(|s|, i requires 0 <= i < |s| => JStr([s[i]])))
    case _ => Failure(TypeError("'" + TypeName(j) + "' object is not iterable"))
  }

  /** `d[k] = v`. */
  function Put(fields: Fields, k: string, v: Json): (r: Fields)
    ensures Get(r, k) == Some(v)
    ensures forall k' :: k' != k ==> Get(r, k') == Get(fields, k')
  {
    assert (fields + [(k, v)])[..|fields|] == fields;
    fields + [(k, v)]
  }

  /** The keys of a dict, each once, in insertion order. */
  function Keys(fields: Fields): (r: seq<string>)
    ensures forall i, j :: 0 <= i < j < |r| ==> r[i] != r[j]
    ensures forall k :: k in r <==> HasKey(fields, k)
  {
    if fields == [] then []
    else
      var init := fields[..|fields| - 1];
      var rest := Keys(init);
      assert forall i :: 0 <= i < |init| ==> init[i] == fields[i];
      assert forall k :: HasKey(fields, k) <==> HasKey(init, k) || fields[|fields| - 1].0 == k;
      if fields[|fields| - 1].0 in rest then rest else rest + [fields[|fields| - 1].0]
  }

  /** Python's `bool(x)`. */
  predicate Truthy(j: Json) {
    match j
    case JNull => false
    case JBool(b) => b
    case JInt(i) => i != 0
    case JFloat(v, _) => v != 0.0
    case JStr(s) => s != []
    case JArray(items) => items != []
    case JObject(fields) => fields != []
  }

  /** Python's `len(x)`; `None` for the `TypeError` on a value without a length. */
  function Len(j: Json): (r: Option<nat>)
    ensures r.Some? <==> j.JStr? || j.JArray? || j.JObject?
    ensures r.Some? ==> (r.value == 0 <==> !Truthy(j))
  {
    match j
    case JStr(s) => Some(|s|)
    case JArray(items) => Some(|items|)
    case JObject(fields) =>
      if fields == [] then Some(0) else assert HasKey(fields, fields[0].0); Some(|Keys(fields)|)
    case _ => None
  }

  /** `k in x` for a string `k`: a dict key, a list element, or a substring; otherwise `TypeError`. */
  function KeyIn(k: string, container: Json): (r: Result<bool, PyError>)
    ensures r.Success? <==> container.JObject? || container.JArray? || container.JStr?
    ensures container.JObject? ==> r == Success(HasKey(container.fields, k))
    ensures container.JArray? ==> r == Success(JStr(k) in container.items)
    ensures container.JStr? ==> r == Success(Contains(container.s, k))
  {
    match container
    case JObject(fields) => Success(HasKey(fields, k))
    case JArray(items) => Success(JStr(k) in items)
    case JStr(s) => Success(Contains(s, k))
    case _ => Failure(TypeError("argument of type '" + TypeName(container) + "' is not iterable"))
  }

  /** The name `type(x)` reports. */
  function TypeName(j: Json): string {
    match j
    case JNull => "NoneType"
    case JBool(_) => "bool"
    case JInt(_) => "int"
    case JFloat(_, _) => "float"
    case JStr(_) => "str"
    case JArray(_) => "list"
    case JObject(_) => "dict"
  }

  /** `isinstance(x, (int, float))`: booleans are integers in Python. */
  predicate IsNumber(j: Json) {
    j.JBool? || j.JInt? || j.JFloat?
  }

  /** The numeric value of a number, for comparisons. */
  function NumberValue(j: Json): real
    requires IsNumber(j)
  {
    match j
    case JBool(b) => if b then 1.0 else 0.0
    case JInt(i) => i as real
    case JFloat(v, _) => v
  }

  /** Truncation toward zero, as `int(float)` does. */
  function TruncateReal(v: real): (r: int)
    ensures (r as real) <= v < (r as real) + 1.0 || (r as real) - 1.0 < v <= (r as real)
    ensures v >= 0.0 ==> r >= 0
  {
    if v >= 0.0 then v.Floor else -((-v).Floor)
  }

  /** Python's `int(x)`. */
  function PyInt(j: Json): (r: Result<int, PyError>)
    ensures j.JInt? ==> r == Success(j.i)
    ensures j.JStr? ==> (r.Success? <==> ParseInt(j.s).Some?)
    ensures (j.JNull? || j.JArray? || j.JObject?) ==> r.Failure? && r.error.TypeError?
  {
    match j
    case JBool(b) => Success(if b then 1 else 0)
    case JInt(i) => Success(i)
    case JFloat(v, _) => Success(TruncateReal(v))
    case JStr(s) =>
      (match ParseInt(s)
       case Some(n) => Success(n)
       case None => Failure(ValueError("invalid literal for int() with base 10: " + Repr(j))))
    case _ => Failure(TypeError("int() argument must be a string, a bytes-like object or a real number, not '" + TypeName(j) + "'"))
  }

  /** Python's `str(x)`. */
  function Show(j: Json): (r: string)
    ensures j.JStr? ==> r == j.s
    ensures j.JInt? ==> r == IntToString(j.i)
    ensures j.JFloat? ==> r == j.repr
  {
    match j
    case JStr(s) => s
    case _ => Repr(j)
  }

  /** Python's `repr(x)`; quoting of strings is simplified to surrounding single quotes. */
  function Repr(j: Json): string {
    match j
    case JNull => "None"
    case JBool(b) => if b then "True" else "False"
    case JInt(i) => IntToString(i)
    case JFloat(_, repr) => repr
    case JStr(s) => "'" + s + "'"
    case JArray(items) => "[" + Join(", ", ReprItems(items, j)) + "]"
    case JObject(fields) => "{" + Join(", ", ReprEntries(Keys(fields), fields, j)) + "}"
  }

  function ReprItems(items: seq<Json>, ghost parent: Json): (r: seq<string>)
    requires forall i :: 0 <= i < |items| ==> items[i] < parent
    ensures |r| == |items|
    decreases parent, |items|
  {
    if items == [] then [] else [Repr(items[0])] + ReprItems(items[1..], parent)
  }

  function ReprEntries(ks: seq<string>, fields: Fields, ghost parent: Json): (r: seq<string>)
    requires forall i :: 0 <= i < |fields| ==> fields[i].1 < parent
    decreases parent, |ks|
  {
    if ks == [] then []
    else
      match Get(fields, ks[0])
      case None => ReprEntries(ks[1..], fields, parent)
      case Some(v) => ["'" + ks[0] + "': " + Repr(v)] + ReprEntries(ks[1..], fields, parent)
  }

  /** A JSON string list, the shape of every `List[str]` field. */
  function StrList(xs: seq<string>): (r: Json)
    ensures r.JArray? && |r.items| == |xs|
    ensures forall i :: 0 <= i < |xs| ==> r.items[i] == JStr(xs[i])
  {
    JArray(seq(|xs|, i requires 0 <= i < |xs| => JStr(xs[i])))
  }
}

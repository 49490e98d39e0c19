/** JSON-like values as the assistant's Python code handles them: the results
    of `json.loads`, the conversation state, plans and query results. Objects
    keep insertion order (see module Dict). Floating-point numbers are not
    represented. */
module Json {
  import opened Wrappers
  import Text
  import Dict

  datatype Json =
    | JNull
    | JBool(b: bool)
    | JInt(i: int)
    | JStr(s: string)
    | JList(items: seq<Json>)
    | JObj(fields: seq<(string, Json)>)

  /** `json.loads`, which the model does not implement: a parser maps text to
      a value, or fails. */
  type Decoder = string -> Option<Json>

  /** Python's truth test: `None`, `False`, `0`, `""`, `[]` and `{}` are false. */
  predicate Truthy(j: Json) {
    match j
    case JNull => false
    case JBool(b) => b
    case JInt(i) => i != 0
    case JStr(s) => s != []
    case JList(xs) => xs != []
    case JObj(fs) => fs != []
  }

  /** `j.get(key, default)` on an object. */
  function GetOr(j: Json, key: string, default: Json): Json
    requires j.JObj?
  {
    Dict.Lookup(j.fields, key).GetOr(default)
  }

  /** `j.get(key)`: `None` when the key is absent. */
  function Get(j: Json, key: string): Json
    requires j.JObj?
  {
    GetOr(j, key, JNull)
  }

  predicate Has(j: Json, key: string)
    requires j.JObj?
  {
    Dict.HasKey(j.fields, key)
  }

  function EmptyObj(): Json {
    JObj([])
  }

  /** `repr(j)`: strings are quoted, everything else is shown as by `str`. */
  function Repr(j: Json): string
    decreases j, 4
  {
    if j.JStr? then "'" + j.s + "'" else Show(j)
  }

  /** `str(j)`, the text an f-string interpolates. */
  function Show(j: Json): string
    decreases j, 3
  {
    match j
    case JNull => "None"
    case JBool(b) => if b then "True" else "False"
    case JInt(i) => Text.IntToString(i)
    case JStr(s) => s
    case JList(xs) => "[" + Text.Join(ShowItems(xs, j), ", ") + "]"
    case JObj(fs) => "{" + Text.Join(ShowFields(fs, j), ", ") + "}"
  }

  function ShowItems(xs: seq<Json>, parent: Json): (r: seq<string>)
    requires forall i :: 0 <= i < |xs| ==> xs[i] < parent
    ensures |r| == |xs|
    decreases parent, 2, |xs|
  {
    if xs == [] then [] else [Repr(xs[0])] + ShowItems(xs[1..], parent)
  }

  function ShowFields(fs: seq<(string, Json)>, parent: Json): (r: seq<string>)
    requires forall i :: 0 <= i < |fs| ==> fs[i].1 < parent
    ensures |r| == |fs|
    decreases parent, 2, |fs|
  {
    if fs == [] then [] else ["'" + fs[0].0 + "': " + Repr(fs[0].1)] + ShowFields(fs[1..], parent)
  }

  /** The name Python gives the type of a value. */
  function TypeName(j: Json): string {
    match j
    case JNull => "NoneType"
    case JBool(_) => "bool"
    case JInt(_) => "int"
    case JStr(_) => "str"
    case JList(_) => "list"
    case JObj(_) => "dict"
  }

  /** `len(j)`, which raises for values without a length. */
  function Len(j: Json): Result<nat> {
    match j
    case JStr(s) => Ok(|s|)
    case JList(xs) => Ok(|xs|)
    case JObj(fs) => Ok(|fs|)
    case _ => Raised("object of type '" + TypeName(j) + "' has no len()")
  }

  /** A JSON list of strings. */
  predicate IsStringList(j: Json) {
    j.JList? && forall i :: 0 <= i < |j.items| ==> j.items[i].JStr?
  }

  function Strings(xs: seq<Json>): (r: seq<string>)
    requires forall i :: 0 <= i < |xs| ==> xs[i].JStr?
    ensures |r| == |xs|
    ensures forall i :: 0 <= i < |xs| ==> xs[i] == JStr(r[i])
  {
    if xs == [] then [] else [xs[0].s] + Strings(xs[1..])
  }

  function StrList(ss: seq<string>): (r: seq<Json>)
    ensures |r| == |ss|
    ensures forall i :: 0 <= i < |ss| ==> r[i] == JStr(ss[i])
  {
    if ss == [] then [] else [JStr(ss[0])] + StrList(ss[1..])
  }

  /** A Python number: `bool` is a subclass of `int`. */
  predicate IsNumber(j: Json) {
    j.JBool? || j.JInt?
  }

  /** The integer a number stands for: `True` is 1 and `False` is 0. */
  function NumVal(j: Json): int
    requires IsNumber(j)
  {
    if j.JBool? then (if j.b then 1 else 0) else j.i
  }

  /** Python's `==` on two values: numbers compare by value (`True == 1`),
      lists item by item, and dictionaries as mappings: the same keys with
      equal values, whatever the order of the keys. */
  predicate PyEq(a: Json, b: Json)
    decreases a
  {
    match a
    case JNull => b.JNull?
    case JBool(_) => IsNumber(b) && NumVal(a) == NumVal(b)
    case JInt(_) => IsNumber(b) && NumVal(a) == NumVal(b)
    case JStr(s) => b == JStr(s)
    case JList(xs) => b.JList? && |xs| == |b.items| && forall i :: 0 <= i < |xs| ==> PyEq(xs[i], b.items[i])
    case JObj(fs) =>
      && b.JObj?
      && (forall j :: 0 <= j < |b.fields| ==> Dict.HasKey(fs, b.fields[j].0))
      && forall i :: 0 <= i < |fs| ==> Dict.HasKey(b.fields, fs[i].0) && PyEq(fs[i].1, Dict.Lookup(b.fields, fs[i].0).value)
  }

  /** Every object inside the value has distinct keys, as every Python
      dictionary does. */
  predicate Canonical(j: Json)
    decreases j
  {
    match j
    case JList(xs) => forall i :: 0 <= i < |xs| ==> Canonical(xs[i])
    case JObj(fs) => Dict.UniqueKeys(fs) && forall i :: 0 <= i < |fs| ==> Canonical(fs[i].1)
    case _ => true
  }

  /** Every value equals itself. */
  lemma {:induction false} PyEqReflexive(a: Json)
    requires Canonical(a)
    ensures PyEq(a, a)
    decreases a
  {
    match a
    case JList(xs) =>
      forall i | 0 <= i < |xs| ensures PyEq(xs[i], xs[i]) {
        PyEqReflexive(xs[i]);
      }
    case JObj(fs) =>
      forall i | 0 <= i < |fs| ensures Dict.HasKey(fs, fs[i].0) && PyEq(fs[i].1, Dict.Lookup(fs, fs[i].0).value) {
        Dict.LookupEntry(fs, i);
        PyEqReflexive(fs[i].1);
      }
    case _ =>
  }
}

/** Filling a Jira story's custom fields from a vulnerability record: the
    record's column names are mapped to Jira field names (by the language
    model, or by a name normalisation when that fails), and each usable value
    is written, converted by field type, to the first field of that name. */
module JiraFields {
  import opened Wrappers
  import opened Text
  import opened Json
  import Dict
  import opened Fence
  import opened Dates

  /** The fallback name for a column: upper-cased, spaces and "(" made "_",
      ")" dropped, "/" made "_". */
  function Normalise(column: string): string {
    ReplaceAll(ReplaceAll(ReplaceAll(ReplaceAll(Upper(column), " ", "_"), "(", "_"), ")", ""), "/", "_")
  }

  /** The same, one character at a time. */
  function NormaliseChars(column: string): string {
    MapChar(MapChar(MapChar(MapChar(Upper(column), ' ', "_"), '(', "_"), ')', ""), '/', "_")
  }

  lemma NormaliseByChars(column: string)
    ensures Normalise(column) == NormaliseChars(column)
  {
    var u := Upper(column);
    ReplaceOneChar(u, ' ', "_");
    var a := MapChar(u, ' ', "_");
    ReplaceOneChar(a, '(', "_");
    var b := MapChar(a, '(', "_");
    ReplaceOneChar(b, ')', "");
    var c := MapChar(b, ')', "");
    ReplaceOneChar(c, '/', "_");
  }

  /** A name the normalisation leaves alone. */
  predicate Normal(s: string) {
    NoAsciiLower(s) && ' ' !in s && '(' !in s && ')' !in s && '/' !in s
  }

  lemma NormaliseIsNormal(column: string)
    ensures Normal(Normalise(column))
  {
    NormaliseByChars(column);
    var u := Upper(column);
    UpperNoLower(column);
    var a := MapChar(u, ' ', "_");
    MapKeeps(u, ' ', "_", u, {});
    var b := MapChar(a, '(', "_");
    MapKeeps(a, '(', "_", u, {' '});
    var c := MapChar(b, ')', "");
    MapKeeps(b, ')', "", u, {' ', '('});
    MapKeeps(c, '/', "_", u, {' ', '(', ')'});
    NormalFrom(MapChar(c, '/', "_"), u);
  }

  /** Every character of `t` is `_` or a character of `u` outside `out`. */
  predicate OnlyFrom(t: string, u: string, out: set<char>) {
    forall x :: x in t ==> x == '_' || (x in u && x !in out)
  }

  lemma MapKeeps(s: string, c: char, repl: string, u: string, out: set<char>)
    requires OnlyFrom(s, u, out) && (forall i :: 0 <= i < |repl| ==> repl[i] == '_')
    ensures OnlyFrom(MapChar(s, c, repl), u, out + {c})
  {
    MapCharChars(s, c, repl);
  }

  lemma NormalFrom(d: string, u: string)
    requires OnlyFrom(d, u, {' ', '(', ')', '/'}) && NoAsciiLower(u)
    ensures Normal(d)
  {
    assert forall i :: 0 <= i < |d| ==> d[i] in d;
  }

  lemma NormalFixed(s: string)
    requires Normal(s)
    ensures Normalise(s) == s
  {
    NormaliseByChars(s);
    UpperFixed(s);
  }

  /** Normalising twice is normalising once. */
  lemma NormaliseIdempotent(column: string)
    ensures Normalise(Normalise(column)) == Normalise(column)
  {
    NormaliseIsNormal(column);
    NormalFixed(Normalise(column));
  }

  /** The fallback mapping over the columns in order: a column is mapped to its
      normalised name when that is one of the Jira field names. */
  function FallbackMapping(columns: seq<string>, names: seq<Json>): (m: seq<(string, Json)>)
    ensures Dict.UniqueKeys(m)
    decreases |columns|
  {
    if columns == [] then []
    else
      var m := FallbackMapping(columns[..|columns| - 1], names);
      var k := columns[|columns| - 1];
      if JStr(Normalise(k)) in names then
        Dict.PutUnique(m, k, JStr(Normalise(k)));
        Dict.Put(m, k, JStr(Normalise(k)))
      else m
  }

  /** A column is mapped to its normalised name exactly when that name is one
      of the Jira field names; nothing else is mapped. */
  lemma {:induction false} FallbackMappingLookup(columns: seq<string>, names: seq<Json>, k: string)
    ensures Dict.Lookup(FallbackMapping(columns, names), k)
         == if k in columns && JStr(Normalise(k)) in names then Some(JStr(Normalise(k))) else None
    decreases |columns|
  {
    if columns != [] {
      var prior := columns[..|columns| - 1];
      var last := columns[|columns| - 1];
      assert columns == prior + [last];
      assert k in columns <==> k in prior || k == last;
      FallbackMappingLookup(prior, names, k);
      if JStr(Normalise(last)) in names {
        Dict.PutLookup(FallbackMapping(prior, names), last, JStr(Normalise(last)), k);
      }
    }
  }

  /** Every value of the fallback mapping is one of the Jira field names, and
      every key one of the columns. */
  lemma FallbackMappingRange(columns: seq<string>, names: seq<Json>, i: nat)
    requires i < |FallbackMapping(columns, names)|
    ensures FallbackMapping(columns, names)[i].0 in columns
    ensures FallbackMapping(columns, names)[i].1 in names
  {
    var m := FallbackMapping(columns, names);
    Dict.LookupEntry(m, i);
    FallbackMappingLookup(columns, names, m[i].0);
  }

  /** `map_csv_to_jira_fields`: whatever the model's answer decodes to, or the
      fallback mapping when the call or the parse fails. */
  function MapColumns(columns: seq<string>, names: seq<Json>, reply: Reply, decode: Decoder): (r: Json)
    ensures Interpret(reply, decode).Some? ==> r == Interpret(reply, decode).value
    ensures Interpret(reply, decode).None? ==> r == JObj(FallbackMapping(columns, names))
  {
    match Interpret(reply, decode)
    case Some(v) => v
    case None => JObj(FallbackMapping(columns, names))
  }

  /** The Jira metadata of a field: an object, whose schema, if given, is an
      object too, and whose name, if given, is a string. */
  predicate FieldShaped(fd: Json) {
    fd.JObj? && GetOr(fd, "schema", EmptyObj()).JObj? && GetOr(fd, "name", JStr("")).JStr?
  }

  predicate MetaShaped(meta: seq<(string, Json)>) {
    forall i :: 0 <= i < |meta| ==> FieldShaped(meta[i].1)
  }

  /** `[fdata.get("name", "") for fdata in meta.values()]`. */
  function FieldNames(meta: seq<(string, Json)>): (r: seq<Json>)
    requires MetaShaped(meta)
    ensures |r| == |meta| && forall i :: 0 <= i < |meta| ==> r[i] == GetOr(meta[i].1, "name", JStr(""))
  {
    if meta == [] then [] else [GetOr(meta[0].1, "name", JStr(""))] + FieldNames(meta[1..])
  }

  /** `field_data.get("schema", {}).get("type", "")`. */
  function FieldType(fd: Json): Json
    requires FieldShaped(fd)
  {
    GetOr(GetOr(fd, "schema", EmptyObj()), "type", JStr(""))
  }

  /** The position of the first field whose name is `name`. */
  function FirstNamed(meta: seq<(string, Json)>, name: Json): (r: Option<nat>)
    requires MetaShaped(meta)
    ensures r.Some? ==> r.value < |meta| && Get(meta[r.value].1, "name") == name
    ensures r.Some? ==> forall i :: 0 <= i < r.value ==> Get(meta[i].1, "name") != name
    ensures r.None? ==> forall i :: 0 <= i < |meta| ==> Get(meta[i].1, "name") != name
  {
    FirstWhere(meta, (f: (string, Json)) => FieldShaped(f.1) && Get(f.1, "name") == name)
  }

  /** A value that is not written: falsy, or shown as "nan", "none" or "" in
      any case. */
  predicate Unusable(value: Json) {
    !Truthy(value) || Lower(Show(value)) in ["nan", "none", ""]
  }

  /** The value written to a field of the given type: a date text with a
      slash converted, an option wrapped as `{"value": ...}`, anything else
      shown as text. */
  function Converted(value: Json, fieldType: Json): (r: Json)
    ensures fieldType == JStr("option") ==> r == JObj([("value", JStr(Show(value)))])
    ensures fieldType != JStr("option") ==> r.JStr?
    ensures fieldType != JStr("date") && fieldType != JStr("option") ==> r == JStr(Show(value))
    ensures fieldType == JStr("date") && ParseMdy(Show(value)).None? ==> r == JStr(Show(value))
  {
    if fieldType == JStr("date") && Contains(Show(value), "/") then JStr(ConvertDate(Show(value)))
    else if fieldType == JStr("option") then JObj([("value", JStr(Show(value)))])
    else JStr(Show(value))
  }

  /** What one mapping entry contributes: the field id and its value, or
      nothing when the value is unusable or no field has the name. */
  function EntryField(record: seq<(string, Json)>, meta: seq<(string, Json)>, column: string, name: Json): (r: Option<(string, Json)>)
    requires MetaShaped(meta)
    ensures r.None? <==> Unusable(Dict.Lookup(record, column).GetOr(JNull)) || FirstNamed(meta, name).None?
    ensures r.Some? ==> r.value.0 == meta[FirstNamed(meta, name).value].0
    ensures r.Some? ==> r.value.1 == Converted(Dict.Lookup(record, column).GetOr(JNull), FieldType(meta[FirstNamed(meta, name).value].1))
  {
    var value := Dict.Lookup(record, column).GetOr(JNull);
    if Unusable(value) then None
    else
      match FirstNamed(meta, name)
      case Some(i) => Some((meta[i].0, Converted(value, FieldType(meta[i].1))))
      case None => None
  }

  /** The fields the entries of `mapping` produce, in order, later entries
      overwriting earlier ones. */
  function FieldsFrom(record: seq<(string, Json)>, meta: seq<(string, Json)>, mapping: seq<(string, Json)>): (r: seq<(string, Json)>)
    requires MetaShaped(meta)
    ensures Dict.UniqueKeys(r)
    ensures forall i :: 0 <= i < |r| ==> Dict.HasKey(meta, r[i].0)
    decreases |mapping|
  {
    if mapping == [] then []
    else
      var prior := FieldsFrom(record, meta, mapping[..|mapping| - 1]);
      var (column, name) := mapping[|mapping| - 1];
      match EntryField(record, meta, column, name)
      case None => prior
      case Some((id, v)) =>
        Dict.PutUnique(prior, id, v);
        assert Dict.HasKey(meta, id) by {
          assert Dict.Keys(meta)[FirstNamed(meta, name).value] == id;
        }
        PutKeysFrom(prior, id, v);
        Dict.Put(prior, id, v)
  }

  lemma PutKeysFrom(d: seq<(string, Json)>, k: string, v: Json)
    ensures forall i :: 0 <= i < |Dict.Put(d, k, v)| ==> Dict.Put(d, k, v)[i].0 == k || Dict.HasKey(d, Dict.Put(d, k, v)[i].0)
  {
    var r := Dict.Put(d, k, v);
    forall i | 0 <= i < |r| ensures r[i].0 == k || Dict.HasKey(d, r[i].0) {
      assert Dict.Keys(r)[i] == r[i].0;
      if i < |d| {
        assert Dict.Keys(r)[i] == Dict.Keys(d)[i];
      }
    }
  }

  /** The last entry decides what `FieldsFrom` holds under its field. */
  lemma FieldsFromLast(record: seq<(string, Json)>, meta: seq<(string, Json)>, mapping: seq<(string, Json)>)
    requires MetaShaped(meta) && mapping != []
    ensures var (column, name) := mapping[|mapping| - 1];
      var e := EntryField(record, meta, column, name);
      && (e.None? ==> FieldsFrom(record, meta, mapping) == FieldsFrom(record, meta, mapping[..|mapping| - 1]))
      && (e.Some? ==> Dict.Lookup(FieldsFrom(record, meta, mapping), e.value.0) == Some(e.value.1))
  {
    var (column, name) := mapping[|mapping| - 1];
    var e := EntryField(record, meta, column, name);
    if e.Some? {
      Dict.PutLookup(FieldsFrom(record, meta, mapping[..|mapping| - 1]), e.value.0, e.value.1, e.value.0);
    }
  }

  /** `prepare_custom_fields(record, meta)`, with the model's answer to the
      mapping prompt as `reply`; it raises when that answer decodes to
      something other than a dictionary. */
  function PrepareCustomFields(record: seq<(string, Json)>, meta: seq<(string, Json)>, reply: Reply, decode: Decoder): (r: Result<seq<(string, Json)>>)
    requires MetaShaped(meta)
    ensures var mapping := MapColumns(Dict.Keys(record), FieldNames(meta), reply, decode);
      && (r.Ok? <==> mapping.JObj?)
      && (r.Ok? ==> r.value == FieldsFrom(record, meta, mapping.fields))
    ensures r.Ok? ==> forall i :: 0 <= i < |r.value| ==> Dict.HasKey(meta, r.value[i].0)
  {
    var mapping := MapColumns(Dict.Keys(record), FieldNames(meta), reply, decode);
    if mapping.JObj? then Ok(FieldsFrom(record, meta, mapping.fields))
    else Raised("the mapping has no attribute 'items'")
  }
}

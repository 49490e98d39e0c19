/** `classify_intent`: the language model labels a user message with an
    intent and extracts its data; anything that goes wrong yields the
    fail-soft answer ("OTHER", ""). */
module Intent {
  import opened Wrappers
  import opened Text
  import opened Json
  import Dict
  import opened Fence

  const OTHER: string := "OTHER"

  /** The classification with the given intent and data: a dictionary with
      exactly these two keys, in this order. */
  function Classification(intent: string, data: Json): (r: Json)
    ensures r.JObj? && Dict.Keys(r.fields) == ["intent", "data"]
    ensures Get(r, "intent") == JStr(intent) && Get(r, "data") == data
  {
    var fields := [("intent", JStr(intent)), ("data", data)];
    assert "intent"[0] != "data"[0];
    assert fields[1..] == [("data", data)];
    assert Dict.Lookup(fields[1..], "data") == Some(data);
    JObj(fields)
  }

  /** The answer returned whenever the call, the parse or `.upper()` raises. */
  function FailSoft(): Json {
    Classification(OTHER, JStr(""))
  }

  /** What `classify_intent` makes of the decoded answer, `None` when the reply
      was missing, did not parse or was not an object. */
  function ClassifyAnswer(answer: Option<Json>): (r: Json)
    requires answer.Some? ==> answer.value.JObj?
    ensures r.JObj? && Dict.Keys(r.fields) == ["intent", "data"]
    ensures Get(r, "intent").JStr? && NoAsciiLower(Get(r, "intent").s)
    ensures answer.None? ==> r == FailSoft()
    ensures answer.Some? && GetOr(answer.value, "intent", JStr(OTHER)).JStr? ==>
      r == Classification(Upper(GetOr(answer.value, "intent", JStr(OTHER)).s), GetOr(answer.value, "data", JStr("")))
    ensures answer.Some? && !GetOr(answer.value, "intent", JStr(OTHER)).JStr? ==> r == FailSoft()
  {
    match answer
    case None => FailSoft()
    case Some(v) =>
      var given := GetOr(v, "intent", JStr(OTHER));
      if given.JStr? then
        UpperNoLower(given.s);
        Classification(Upper(given.s), GetOr(v, "data", JStr("")))
      else FailSoft()
  }

  /** `classify_intent(message)`, with the model's answer to the prompt built
      from `message` as `reply`. */
  function ClassifyIntent(reply: Reply, decode: Decoder): (r: Json)
    ensures r.JObj? && Dict.Keys(r.fields) == ["intent", "data"]
    ensures Get(r, "intent").JStr? && NoAsciiLower(Get(r, "intent").s)
    ensures InterpretObject(reply, decode).None? ==> r == FailSoft()
  {
    ClassifyAnswer(InterpretObject(reply, decode))
  }

  /** An answer without the keys gives the defaults, which equal the
      fail-soft answer. */
  lemma MissingKeysDefault(answer: Json)
    requires answer.JObj? && !Has(answer, "intent") && !Has(answer, "data")
    ensures ClassifyAnswer(Some(answer)) == FailSoft()
  {
    UpperFixed(OTHER);
  }
}

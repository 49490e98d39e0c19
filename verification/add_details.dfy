/** Adding user-provided details to the conversation state: CVE ids are
    merged as a sorted union, free text is appended after a separator, and
    remediation-plan changes are merged into the existing plan, by the
    language model or, when that fails, by a top-level override. */
module AddDetails {
  import opened Wrappers
  import opened Text
  import opened Json
  import Dict
  import opened Fence
  import opened CveIds
  import opened PySorted

  const SEPARATOR: string := "\n\n---\n\n"
  const NO_INPUT: string := "No input provided to add details."
  const NOTHING_FOUND: string := "I couldn't identify any details to add from your input. Please provide CVE IDs (format: CVE-YYYY-NNNNN), additional information like paths, system details, or a remediation plan (JSON format)."
  const CHECK: string := "\U{2713}"

  /** The state keys an update may set. */
  const UPDATE_KEYS: set<string> := {"cve_ids", "additional_info", "remediation_plan"}

  /** New free text after the prior text, with a separator when there is
      prior text. */
  function AppendInfo(prior: string, added: string): (r: string)
    ensures prior == [] ==> r == added
    ensures prior != [] ==> |r| == |prior| + |SEPARATOR| + |added|
    ensures |r| >= |prior| && r[..|prior|] == prior
    ensures r[|r| - |added|..] == added
  {
    if prior != [] then prior + SEPARATOR + added else added
  }

  /** The "deep merge" loop of the fallback, as written: for every change
      whose value is an object, when the merged plan holds an object under
      that key, the two are merged. It reads the merged plan after the
      top-level update, so it merges each such value with itself. */
  function DeepMergeLoop(merged: seq<(string, Json)>, changes: seq<(string, Json)>): seq<(string, Json)>
    decreases |changes|
  {
    if changes == [] then merged
    else
      var k := changes[0].0;
      var v := changes[0].1;
      var current := Dict.Lookup(merged, k);
      var next :=
        if v.JObj? && current.Some? && current.value.JObj? then
          Dict.Put(merged, k, JObj(Dict.Update(current.value.fields, v.fields)))
        else merged;
      DeepMergeLoop(next, changes[1..])
  }

  /** Every object among the values of `fs` is a dictionary: its keys do not
      repeat. */
  predicate NestedUnique(fs: seq<(string, Json)>) {
    forall i :: 0 <= i < |fs| ==> fs[i].1.JObj? ==> Dict.UniqueKeys(fs[i].1.fields)
  }

  /** The fallback of `merge_remediation_plans` when the model's answer is
      unusable. */
  function FallbackMerge(existing: Json, changes: Json): (r: Json)
    requires Truthy(existing) && Truthy(changes) && changes.JObj? ==> existing.JObj?
    ensures !Truthy(changes) || !changes.JObj? ==> r == (if Truthy(existing) then existing else EmptyObj())
    ensures Truthy(changes) && changes.JObj? && !Truthy(existing) ==> r == changes
    ensures r.JObj? || r == existing
  {
    if Truthy(changes) && changes.JObj? then
      if Truthy(existing) then
        JObj(DeepMergeLoop(Dict.Update(existing.fields, changes.fields), changes.fields))
      else changes
    else if Truthy(existing) then existing
    else EmptyObj()
  }

  /** The loop leaves a plan alone when every change is already in it. */
  lemma {:induction false} DeepMergeIdle(m: seq<(string, Json)>, changes: seq<(string, Json)>)
    requires NestedUnique(changes)
    requires forall i :: 0 <= i < |changes| ==> Dict.Lookup(m, changes[i].0) == Some(changes[i].1)
    ensures DeepMergeLoop(m, changes) == m
    decreases |changes|
  {
    if changes != [] {
      var k := changes[0].0;
      var v := changes[0].1;
      if v.JObj? {
        Dict.UpdateSelf(v.fields);
        Dict.PutSame(m, k, v);
      }
      assert NestedUnique(changes[1..]) by {
        forall i | 0 <= i < |changes[1..]| ensures changes[1..][i] == changes[i + 1] { }
      }
      DeepMergeIdle(m, changes[1..]);
    }
  }

  /** The fallback merge is a shallow top-level override: it equals
      `existing.update(changes)`. */
  lemma FallbackIsShallow(existing: Json, changes: Json)
    requires existing.JObj? && existing.fields != [] && changes.JObj? && changes.fields != []
    requires Dict.UniqueKeys(changes.fields) && NestedUnique(changes.fields)
    ensures FallbackMerge(existing, changes) == JObj(Dict.Update(existing.fields, changes.fields))
  {
    var m := Dict.Update(existing.fields, changes.fields);
    ChangesHeld(existing.fields, changes.fields);
    DeepMergeIdle(m, changes.fields);
    assert Truthy(existing) && Truthy(changes);
  }

  /** After `d.update(e)`, every entry of `e` is what `get` finds. */
  lemma ChangesHeld(d: seq<(string, Json)>, e: seq<(string, Json)>)
    requires Dict.UniqueKeys(e)
    ensures forall i :: 0 <= i < |e| ==> Dict.Lookup(Dict.Update(d, e), e[i].0) == Some(e[i].1)
  {
    forall i | 0 <= i < |e|
      ensures Dict.Lookup(Dict.Update(d, e), e[i].0) == Some(e[i].1)
    {
      ChangeHeld(d, e, i);
    }
  }

  /** After `d.update(e)`, each entry of `e` is what `get` finds. */
  lemma ChangeHeld(d: seq<(string, Json)>, e: seq<(string, Json)>, i: nat)
    requires Dict.UniqueKeys(e) && i < |e|
    ensures Dict.Lookup(Dict.Update(d, e), e[i].0) == Some(e[i].1)
  {
    Dict.UpdateLookup(d, e, e[i].0);
    Dict.LookupEntry(e, i);
  }

  /** What the fallback merge yields for two non-empty plans: the keys of
      both, the change's value under a changed key, and the existing value,
      untouched, under every other key. */
  lemma FallbackMergeLookup(existing: Json, changes: Json, k: string)
    requires existing.JObj? && existing.fields != [] && changes.JObj? && changes.fields != []
    requires Dict.UniqueKeys(changes.fields) && NestedUnique(changes.fields)
    ensures FallbackMerge(existing, changes).JObj?
    ensures Dict.HasKey(FallbackMerge(existing, changes).fields, k) <==> Dict.HasKey(existing.fields, k) || Dict.HasKey(changes.fields, k)
    ensures Dict.HasKey(changes.fields, k) ==> Get(FallbackMerge(existing, changes), k) == Get(changes, k)
    ensures !Dict.HasKey(changes.fields, k) ==> Get(FallbackMerge(existing, changes), k) == Get(existing, k)
  {
    FallbackIsShallow(existing, changes);
    Dict.UpdateLookup(existing.fields, changes.fields, k);
  }

  /** What the deep merge leaves under a changed key, as the fallback's
      comment intends: a dictionary change merged into the existing
      dictionary section, and any other change as it is. */
  function MergedSection(current: Option<Json>, change: Json): Json {
    if change.JObj? && current.Some? && current.value.JObj? then
      JObj(Dict.Update(current.value.fields, change.fields))
    else change
  }

  /** The changes with every dictionary change already merged into the
      section of `base` it changes. */
  function Overlay(base: seq<(string, Json)>, changes: seq<(string, Json)>): (r: seq<(string, Json)>)
    ensures Dict.Keys(r) == Dict.Keys(changes)
    ensures forall i :: 0 <= i < |changes| ==> r[i] == (changes[i].0, MergedSection(Dict.Lookup(base, changes[i].0), changes[i].1))
  {
    seq(|changes|, i requires 0 <= i < |changes| => (changes[i].0, MergedSection(Dict.Lookup(base, changes[i].0), changes[i].1)))
  }

  /** The fallback merge as evidently intended: the nested merge reads the
      section of the existing plan rather than the one the top-level update
      has just replaced. */
  function DeepMerge(existing: Json, changes: Json): (r: Json)
    requires Truthy(existing) && Truthy(changes) && changes.JObj? ==> existing.JObj?
    ensures !Truthy(changes) || !changes.JObj? ==> r == (if Truthy(existing) then existing else EmptyObj())
    ensures Truthy(changes) && changes.JObj? && !Truthy(existing) ==> r == changes
    ensures r.JObj? || r == existing
  {
    if Truthy(changes) && changes.JObj? then
      if Truthy(existing) then
        JObj(Dict.Update(existing.fields, Overlay(existing.fields, changes.fields)))
      else changes
    else if Truthy(existing) then existing
    else EmptyObj()
  }

  /** `get` on the overlay finds the merged section of every changed key. */
  lemma OverlayLookup(base: seq<(string, Json)>, changes: seq<(string, Json)>, k: string)
    requires Dict.UniqueKeys(changes)
    ensures Dict.UniqueKeys(Overlay(base, changes))
    ensures Dict.Lookup(Overlay(base, changes), k) ==
      if Dict.HasKey(changes, k) then Some(MergedSection(Dict.Lookup(base, k), Dict.Lookup(changes, k).value)) else None
  {
    var o := Overlay(base, changes);
    if Dict.HasKey(changes, k) {
      var i :| 0 <= i < |changes| && Dict.Keys(changes)[i] == k;
      Dict.LookupEntry(changes, i);
      Dict.LookupEntry(o, i);
    }
  }

  /** What the intended merge yields for two non-empty plans: the keys of
      both; under a changed key the existing section merged with the change
      when both are dictionaries, and the change otherwise; under every other
      key the existing section. */
  lemma DeepMergeLookup(existing: Json, changes: Json, k: string)
    requires existing.JObj? && existing.fields != [] && changes.JObj? && changes.fields != []
    requires Dict.UniqueKeys(changes.fields)
    ensures DeepMerge(existing, changes).JObj?
    ensures Dict.HasKey(DeepMerge(existing, changes).fields, k) <==> Dict.HasKey(existing.fields, k) || Dict.HasKey(changes.fields, k)
    ensures Dict.HasKey(changes.fields, k) ==> Get(DeepMerge(existing, changes), k) == MergedSection(Dict.Lookup(existing.fields, k), Get(changes, k))
    ensures !Dict.HasKey(changes.fields, k) ==> Get(DeepMerge(existing, changes), k) == Get(existing, k)
  {
    assert Truthy(existing) && Truthy(changes);
    var o := Overlay(existing.fields, changes.fields);
    OverlayLookup(existing.fields, changes.fields, k);
    Dict.UpdateLookup(existing.fields, o, k);
  }

  /** A nested change keeps the entries of the existing section it does not
      name: they are what the merged section holds. */
  lemma DeepMergeKeepsNested(existing: Json, changes: Json, k: string, n: string)
    requires existing.JObj? && existing.fields != [] && changes.JObj? && changes.fields != []
    requires Dict.UniqueKeys(changes.fields)
    requires Get(existing, k).JObj? && Get(changes, k).JObj? && Dict.UniqueKeys(Get(changes, k).fields)
    ensures Get(DeepMerge(existing, changes), k).JObj?
    ensures Get(Get(DeepMerge(existing, changes), k), n) ==
      if Has(Get(changes, k), n) then Get(Get(changes, k), n) else Get(Get(existing, k), n)
  {
    DeepMergeLookup(existing, changes, k);
    Dict.UpdateLookup(Get(existing, k).fields, Get(changes, k).fields, n);
  }

  /** The fallback as written drops the nested entries the intended merge
      keeps: a change to one check of `pre_checks` loses the other checks. */
  lemma NestedChangeLost()
    ensures var existing := JObj([("pre_checks", JObj([("disk", JStr("df -h"))]))]);
      var changes := JObj([("pre_checks", JObj([("memory", JStr("free -m"))]))]);
      && FallbackMerge(existing, changes) == changes
      && DeepMerge(existing, changes) == JObj([("pre_checks", JObj([("disk", JStr("df -h")), ("memory", JStr("free -m"))]))])
  {
    var existing := JObj([("pre_checks", JObj([("disk", JStr("df -h"))]))]);
    var changes := JObj([("pre_checks", JObj([("memory", JStr("free -m"))]))]);
    var section := JObj([("memory", JStr("free -m"))]);
    assert Dict.Update(existing.fields, changes.fields) == changes.fields;
    assert DeepMergeLoop(changes.fields, changes.fields) == changes.fields by {
      assert Dict.Update(section.fields, section.fields) == section.fields;
    }
    var o := Overlay(existing.fields, changes.fields);
    assert o == [("pre_checks", JObj([("disk", JStr("df -h")), ("memory", JStr("free -m"))]))] by {
      assert Dict.Update([("disk", JStr("df -h"))], section.fields) == [("disk", JStr("df -h")), ("memory", JStr("free -m"))];
    }
  }

  /** `merge_remediation_plans`, as written: the model's merged plan when it
      answers with an object, and otherwise the fallback, which for two
      non-empty plans replaces whole top-level sections (`NestedChangeLost`
      shows what the intended `DeepMerge` keeps instead). */
  function MergeRemediationPlans(existing: Json, changes: Json, reply: Reply, decode: Decoder): (r: Json)
    requires Truthy(existing) && Truthy(changes) && changes.JObj? ==> existing.JObj?
    ensures InterpretObject(reply, decode).Some? ==> r == InterpretObject(reply, decode).value
    ensures InterpretObject(reply, decode).None? ==> r == FallbackMerge(existing, changes)
    ensures InterpretObject(reply, decode).None? && existing.JObj? && existing.fields != []
      && changes.JObj? && changes.fields != [] && Dict.UniqueKeys(changes.fields) && NestedUnique(changes.fields)
      ==> r == JObj(Dict.Update(existing.fields, changes.fields))
  {
    match InterpretObject(reply, decode)
    case Some(merged) => merged
    case None =>
      if existing.JObj? && existing.fields != [] && changes.JObj? && changes.fields != []
        && Dict.UniqueKeys(changes.fields) && NestedUnique(changes.fields)
      then
        FallbackIsShallow(existing, changes);
        FallbackMerge(existing, changes)
      else FallbackMerge(existing, changes)
  }

  /** The shapes of the state entries `parse_state_updates` reads: the code
      concatenates the CVE list, slices the text and merges into the plan. */
  predicate StateShaped(state: Json) {
    && state.JObj?
    && (Truthy(Get(state, "cve_ids")) ==> IsStringList(Get(state, "cve_ids")))
    && (Truthy(Get(state, "additional_info")) ==> Get(state, "additional_info").JStr?)
    && (Truthy(Get(state, "remediation_plan")) ==> Get(state, "remediation_plan").JObj?)
  }

  /** `current_state.get("cve_ids") or []`. */
  function CurrentIds(state: Json): seq<string>
    requires StateShaped(state)
  {
    var ids := Get(state, "cve_ids");
    if Truthy(ids) then Strings(ids.items) else []
  }

  /** `current_state.get("additional_info") or ""`. */
  function CurrentInfo(state: Json): string
    requires StateShaped(state)
  {
    var info := Get(state, "additional_info");
    if Truthy(info) then info.s else ""
  }

  function IdsValue(ids: seq<string>): Json {
    JList(StrList(ids))
  }

  /** A CVE list an update may set: a list; when it holds strings, sorted,
      duplicate-free and keeping every current id; and a list holding
      anything else only when there were no current ids (strings and other
      values do not sort together). */
  predicate CveValueOk(v: Json, current: seq<string>) {
    && v.JList?
    && (IsStringList(v) ==> Ascending(Strings(v.items)) && forall x :: x in current ==> x in Strings(v.items))
    && (!IsStringList(v) ==> current == [])
  }

  /** Additional text an update may set: it extends the current text. */
  predicate InfoValueOk(v: Json, current: string) {
    v.JStr? && |v.s| >= |current| && v.s[..|current|] == current
  }

  /** An update sets only known keys, each once, and the values above. */
  predicate UpdateOk(u: seq<(string, Json)>, ids: seq<string>, info: string) {
    && Dict.UniqueKeys(u)
    && forall i :: 0 <= i < |u| ==>
         && u[i].0 in UPDATE_KEYS
         && (u[i].0 == "cve_ids" ==> CveValueOk(u[i].1, ids))
         && (u[i].0 == "additional_info" ==> InfoValueOk(u[i].1, info))
  }

  /** The sorted union, as a JSON list, is a valid CVE list. */
  lemma UnionValueOk(current: seq<string>, added: seq<string>)
    ensures CveValueOk(IdsValue(SortedUnion(current, added)), current)
  {
    var ids := SortedUnion(current, added);
    var j := IdsValue(ids);
    assert forall i :: 0 <= i < |ids| ==> Strings(j.items)[i] == ids[i];
    assert Strings(j.items) == ids;
  }

  /** The model asks to add the CVE ids under "cve_ids": the flag is set
      and the value is a non-empty list. */
  predicate CveAsked(result: Json)
    requires result.JObj?
  {
    && Truthy(GetOr(result, "update_cve_ids", JBool(false)))
    && Truthy(Get(result, "cve_ids"))
    && Get(result, "cve_ids").JList?
  }

  /** The CVE part of the model-driven update: `sorted(set(current + new))`
      over the current ids and whatever the model's list holds; `None` when
      that raises. */
  function CveUpdate(result: Json, current: seq<string>): (r: Option<seq<(string, Json)>>)
    requires result.JObj?
    ensures r.None? <==> CveAsked(result) && !Sortable(StrList(current) + Get(result, "cve_ids").items)
    ensures r.Some? ==> (r.value != [] <==> CveAsked(result))
    ensures r.Some? ==> |r.value| <= 1 && forall i :: 0 <= i < |r.value| ==> r.value[i].0 == "cve_ids" && CveValueOk(r.value[i].1, current)
    ensures CveAsked(result) && IsStringList(Get(result, "cve_ids")) ==>
      && r.Some? && |r.value| == 1 && IsStringList(r.value[0].1)
      && forall y :: y in Strings(r.value[0].1.items) <==> y in current || JStr(y) in Get(result, "cve_ids").items
  {
    if CveAsked(result) then CveUnion(current, Get(result, "cve_ids").items)
    else Some([])
  }

  /** `sorted(set(current + added))` stored under "cve_ids", or `None` when
      it raises. */
  function CveUnion(current: seq<string>, added: seq<Json>): (r: Option<seq<(string, Json)>>)
    requires added != []
    ensures r.None? <==> !Sortable(StrList(current) + added)
    ensures r.Some? ==> |r.value| == 1 && r.value[0].0 == "cve_ids" && CveValueOk(r.value[0].1, current)
    ensures IsStringList(JList(added)) ==>
      && r.Some? && IsStringList(r.value[0].1)
      && forall y :: y in Strings(r.value[0].1.items) <==> y in current || JStr(y) in added
  {
    match SortedSetOf(StrList(current) + added)
    case None =>
      assert !IsStringList(JList(added)) by {
        if IsStringList(JList(added)) {
          StringsJoined(current, added);
        }
      }
      None
    case Some(ids) =>
      CveSetOk(current, added, ids);
      Some([("cve_ids", JList(ids))])
  }

  /** `JStr(y)` is in a string list exactly when `y` is among its strings. */
  lemma InStrList(ss: seq<string>, y: string)
    ensures JStr(y) in StrList(ss) <==> y in ss
  {
    if y in ss {
      var i :| 0 <= i < |ss| && ss[i] == y;
      assert StrList(ss)[i] == JStr(y);
    }
  }

  /** What `sorted(set(current + added))` yields, when it does not raise, is a
      CVE list an update may set; for a list of strings it is their union. */
  lemma CveSetOk(current: seq<string>, added: seq<Json>, ids: seq<Json>)
    requires added != [] && SortedSetOf(StrList(current) + added) == Some(ids)
    ensures CveValueOk(JList(ids), current)
    ensures IsStringList(JList(added)) ==>
      && IsStringList(JList(ids))
      && forall y :: y in Strings(ids) <==> y in current || JStr(y) in added
  {
    if IsStringList(JList(added)) {
      StringSetUnion(current, added, ids);
    } else {
      var j :| 0 <= j < |added| && !added[j].JStr?;
      MixedSet(current, added, ids, j);
    }
  }

  /** Current ids and new strings sort to the ascending list of both. */
  lemma StringSetUnion(current: seq<string>, added: seq<Json>, ids: seq<Json>)
    requires IsStringList(JList(added)) && SortedSetOf(StrList(current) + added) == Some(ids)
    ensures CveValueOk(JList(ids), current)
    ensures IsStringList(JList(ids))
    ensures forall y :: y in Strings(ids) <==> y in current || JStr(y) in added
  {
    var xs := StrList(current) + added;
    StringsJoined(current, added);
    forall y ensures JStr(y) in xs <==> y in current || JStr(y) in added {
      InStrList(current, y);
    }
  }

  /** A sortable list holding a non-string had no current ids, and its set
      holds no string. */
  lemma MixedSet(current: seq<string>, added: seq<Json>, ids: seq<Json>, j: nat)
    requires j < |added| && !added[j].JStr?
    requires SortedSetOf(StrList(current) + added) == Some(ids)
    ensures CveValueOk(JList(ids), current)
  {
    var xs := StrList(current) + added;
    assert current == [] by {
      MixedNeedsNoCurrent(current, added, j);
    }
    assert forall i :: 0 <= i < |ids| ==> !ids[i].JStr? by {
      assert xs[|current| + j] == added[j];
    }
    NoStringsOk(ids);
  }

  /** A list without strings is a CVE value only when there were no ids. */
  lemma NoStringsOk(ids: seq<Json>)
    requires forall i :: 0 <= i < |ids| ==> !ids[i].JStr?
    ensures CveValueOk(JList(ids), [])
  {
    if |ids| > 0 {
      assert !ids[0].JStr?;
    }
  }

  /** Current ids and a list of strings make a list of strings. */
  lemma StringsJoined(current: seq<string>, added: seq<Json>)
    requires IsStringList(JList(added))
    ensures forall i :: 0 <= i < |StrList(current) + added| ==> (StrList(current) + added)[i].JStr?
  {
    var xs := StrList(current) + added;
    forall i | 0 <= i < |xs| ensures xs[i].JStr? {
      if i >= |current| {
        assert xs[i] == added[i - |current|];
      }
    }
  }

  /** Current ids and a non-string do not sort together. */
  lemma MixedNeedsNoCurrent(current: seq<string>, added: seq<Json>, j: nat)
    requires j < |added| && !added[j].JStr?
    ensures current != [] ==> SortedSetOf(StrList(current) + added).None?
  {
    var xs := StrList(current) + added;
    if current != [] {
      assert xs[0] == JStr(current[0]);
      assert xs[|current| + j] == added[j];
      StringsDoNotMix(xs, 0, |current| + j);
    }
  }

  function InfoUpdate(result: Json, current: string): (r: seq<(string, Json)>)
    requires result.JObj?
    ensures |r| <= 1 && forall i :: 0 <= i < |r| ==> r[i].0 == "additional_info" && InfoValueOk(r[i].1, current)
  {
    if Truthy(GetOr(result, "update_additional_info", JBool(false))) then
      var added := Get(result, "additional_info");
      if Truthy(added) && added.JStr? then [("additional_info", JStr(AppendInfo(current, added.s)))]
      else []
    else []
  }

  function PlanUpdate(result: Json, plan: Json, mergeReply: Reply, decode: Decoder): (r: seq<(string, Json)>)
    requires result.JObj?
    requires Truthy(plan) ==> plan.JObj?
    ensures |r| <= 1 && forall i :: 0 <= i < |r| ==> r[i].0 == "remediation_plan"
  {
    if Truthy(GetOr(result, "update_remediation_plan", JBool(false))) then
      var changes := Get(result, "remediation_plan_changes");
      if Truthy(changes) && changes.JObj? then
        if Truthy(plan) then [("remediation_plan", MergeRemediationPlans(plan, changes, mergeReply, decode))]
        else [("remediation_plan", changes)]
      else []
    else []
  }

  /** The three parts, each setting its own key at most once, form a valid
      update. */
  lemma Assemble(a: seq<(string, Json)>, b: seq<(string, Json)>, c: seq<(string, Json)>, ids: seq<string>, info: string)
    requires |a| <= 1 && forall i :: 0 <= i < |a| ==> a[i].0 == "cve_ids" && CveValueOk(a[i].1, ids)
    requires |b| <= 1 && forall i :: 0 <= i < |b| ==> b[i].0 == "additional_info" && InfoValueOk(b[i].1, info)
    requires |c| <= 1 && forall i :: 0 <= i < |c| ==> c[i].0 == "remediation_plan"
    ensures UpdateOk(a + b + c, ids, info)
  {
    var u := a + b + c;
    var ks := Dict.Keys(u);
    forall i | 0 <= i < |u|
      ensures ks[i] == (if i < |a| then "cve_ids" else if i < |a| + |b| then "additional_info" else "remediation_plan")
    {
      if i < |a| { assert u[i] == a[i]; }
      else if i < |a| + |b| { assert u[i] == b[i - |a|]; }
      else { assert u[i] == c[i - |a| - |b|]; }
    }
    forall i | 0 <= i < |u|
      ensures u[i].0 in UPDATE_KEYS
      ensures u[i].0 == "cve_ids" ==> CveValueOk(u[i].1, ids)
      ensures u[i].0 == "additional_info" ==> InfoValueOk(u[i].1, info)
    {
      if i < |a| { assert u[i] == a[i]; }
      else if i < |a| + |b| { assert u[i] == b[i - |a|]; }
      else { assert u[i] == c[i - |a| - |b|]; }
    }
  }

  /** The fallback when the model's answer is unusable: the CVE ids found in
      the input, else the input as additional text, else nothing. */
  function FallbackUpdates(input: string, state: Json): (r: seq<(string, Json)>)
    requires StateShaped(state)
    ensures |r| <= 1
    ensures r == [] <==> ExtractCveIds(input) == [] && IsBlank(input)
    ensures ExtractCveIds(input) != [] ==> r == [("cve_ids", IdsValue(SortedUnion(CurrentIds(state), ExtractCveIds(input))))]
    ensures ExtractCveIds(input) == [] && !IsBlank(input) ==> r == [("additional_info", JStr(AppendInfo(CurrentInfo(state), input)))]
  {
    var ids := ExtractCveIds(input);
    if ids != [] then [("cve_ids", IdsValue(SortedUnion(CurrentIds(state), ids)))]
    else if !IsBlank(input) then [("additional_info", JStr(AppendInfo(CurrentInfo(state), input)))]
    else []
  }

  /** The fallback, too, keeps every current id and extends the text. */
  lemma FallbackUpdatesOk(input: string, state: Json)
    requires StateShaped(state)
    ensures UpdateOk(FallbackUpdates(input, state), CurrentIds(state), CurrentInfo(state))
  {
    var ids := ExtractCveIds(input);
    var u := FallbackUpdates(input, state);
    if ids != [] {
      CveFallbackOk(CurrentIds(state), CurrentInfo(state), ids);
    } else if !IsBlank(input) {
      InfoFallbackOk(CurrentIds(state), CurrentInfo(state), input);
    } else {
      assert u == [];
    }
  }

  lemma CveFallbackOk(current: seq<string>, info: string, ids: seq<string>)
    ensures UpdateOk([("cve_ids", IdsValue(SortedUnion(current, ids)))], current, info)
  {
    var u := [("cve_ids", IdsValue(SortedUnion(current, ids)))];
    UnionValueOk(current, ids);
    Assemble(u, [], [], current, info);
    assert u + [] + [] == u;
  }

  lemma InfoFallbackOk(current: seq<string>, info: string, input: string)
    ensures UpdateOk([("additional_info", JStr(AppendInfo(info, input)))], current, info)
  {
    var u := [("additional_info", JStr(AppendInfo(info, input)))];
    assert InfoValueOk(u[0].1, info);
    Assemble([], u, [], current, info);
    assert [] + u + [] == u;
  }

  /** The update a model answer `result` asks for, or `None` when applying it
      raises. */
  function ModelUpdates(result: Json, state: Json, mergeReply: Reply, decode: Decoder): (r: Option<seq<(string, Json)>>)
    requires result.JObj? && StateShaped(state)
    ensures r.Some? ==> UpdateOk(r.value, CurrentIds(state), CurrentInfo(state))
  {
    match CveUpdate(result, CurrentIds(state))
    case None => None
    case Some(cve) =>
      var info := InfoUpdate(result, CurrentInfo(state));
      var plan := PlanUpdate(result, Get(state, "remediation_plan"), mergeReply, decode);
      Assemble(cve, info, plan, CurrentIds(state), CurrentInfo(state));
      Some(cve + info + plan)
  }

  /** `parse_state_updates(input, state)`, with the model's answers to the
      parse and merge prompts as `parseReply` and `mergeReply`. */
  function ParseStateUpdates(input: string, state: Json, parseReply: Reply, mergeReply: Reply, decode: Decoder): (r: seq<(string, Json)>)
    requires StateShaped(state)
    ensures UpdateOk(r, CurrentIds(state), CurrentInfo(state))
    ensures SummaryReady(r)
    ensures InterpretObject(parseReply, decode).None? ==> r == FallbackUpdates(input, state)
  {
    FallbackUpdatesOk(input, state);
    var r :=
      match InterpretObject(parseReply, decode)
      case Some(result) =>
        (match ModelUpdates(result, state, mergeReply, decode)
         case Some(u) => u
         case None => FallbackUpdates(input, state))
      case None => FallbackUpdates(input, state);
    UpdatedShapes(r, CurrentIds(state), CurrentInfo(state));
    r
  }

  const SUMMARY_HEAD: string := "Details added successfully:\n"
  const CVE_LINE: string := CHECK + " CVE IDs: "
  const INFO_LINE: string := CHECK + " Additional Information: "
  const PLAN_LINE: string := CHECK + " Remediation Plan: "
  /** How much of the added text the confirmation shows. */
  const PREVIEW: nat := 200

  /** The `TypeError` of `str.join` at an item that is not a string. */
  function JoinItemError(i: nat, item: Json): string {
    "sequence item " + NatToString(i) + ": expected str instance, " + TypeName(item) + " found"
  }

  /** `sep.join(items)`, which raises at the first item that is not a
      string. */
  function JoinStrings(items: seq<Json>, sep: string): (r: Result<string>)
    ensures r.Ok? <==> forall i :: 0 <= i < |items| ==> items[i].JStr?
    ensures r.Ok? ==> r.value == Join(Strings(items), sep)
    ensures r.Raised? ==>
      exists i :: 0 <= i < |items| && !items[i].JStr? && (forall m :: 0 <= m < i ==> items[m].JStr?) && r.message == JoinItemError(i, items[i])
  {
    match FirstWhere(items, (j: Json) => !j.JStr?)
    case Some(i) => Raised(JoinItemError(i, items[i]))
    case None => Ok(Join(Strings(items), sep))
  }

  /** The first five names, joined, with "..." when there are more. */
  function FirstFive(names: seq<string>): (r: string)
    ensures |names| <= 5 ==> r == Join(names, ", ")
    ensures |names| > 5 ==> r == Join(names[..5], ", ") + "..."
  {
    Join(Take(names, 5), ", ") + (if |names| > 5 then "..." else "")
  }

  /** The line on the added text: a preview of its first 200 characters,
      marked with "..." when it was cut. */
  function InfoLine(info: string): (r: string)
    ensures StartsWith(r, INFO_LINE)
    ensures |info| <= PREVIEW ==> r == INFO_LINE + info
    ensures |info| > PREVIEW ==> r == INFO_LINE + info[..PREVIEW] + "..."
  {
    INFO_LINE + Take(info, PREVIEW) + (if |info| > PREVIEW then "..." else "")
  }

  /** A section of `plan` that is new, or differs from the existing one by
      Python's `!=`. */
  predicate SectionChanged(plan: Json, existing: Json, k: string)
    requires plan.JObj? && existing.JObj?
  {
    !Has(existing, k) || !PyEq(Get(plan, k), Get(existing, k))
  }

  /** The sections among `keys` that changed, in the order of `keys`. */
  function ChangedSections(keys: seq<string>, plan: Json, existing: Json): (r: seq<string>)
    requires plan.JObj? && existing.JObj?
    ensures forall k :: k in r <==> k in keys && SectionChanged(plan, existing, k)
    ensures |r| <= |keys|
    ensures r == [] <==> forall i :: 0 <= i < |keys| ==> !SectionChanged(plan, existing, keys[i])
  {
    if keys == [] then []
    else
      var k := keys[0];
      var rest := ChangedSections(keys[1..], plan, existing);
      if SectionChanged(plan, existing, k) then [k] + rest else rest
  }

  /** A plan compared with itself has no changed section. */
  lemma NoSectionChangedInSelf(plan: Json)
    requires plan.JObj? && Canonical(plan)
    ensures ChangedSections(Dict.Keys(plan.fields), plan, plan) == []
  {
    var keys := Dict.Keys(plan.fields);
    forall k | k in keys ensures !SectionChanged(plan, plan, k) {
      var i :| 0 <= i < |keys| && keys[i] == k;
      Dict.LookupEntry(plan.fields, i);
      PyEqReflexive(plan.fields[i].1);
    }
  }

  /** Sections compare as Python values: a section whose entries come in
      another order, or that holds `True` where there was `1`, is unchanged. */
  lemma ReorderedSectionUnchanged()
    ensures var existing := JObj([("pre_checks", JObj([("disk", JStr("df -h")), ("retries", JInt(1))]))]);
      var plan := JObj([("pre_checks", JObj([("retries", JBool(true)), ("disk", JStr("df -h"))]))]);
      ChangedSections(["pre_checks"], plan, existing) == []
  {
    var a := JObj([("retries", JBool(true)), ("disk", JStr("df -h"))]);
    var b := JObj([("disk", JStr("df -h")), ("retries", JInt(1))]);
    assert Dict.Keys(a.fields) == ["retries", "disk"];
    assert Dict.Keys(b.fields) == ["disk", "retries"];
    assert PyEq(a.fields[0].1, Dict.Lookup(b.fields, "retries").value);
    assert PyEq(a.fields[1].1, Dict.Lookup(b.fields, "disk").value);
    assert PyEq(a, b);
  }

  const CREATED_WITH: string := "Created with "
  const UPDATED_SECTIONS: string := "Updated sections ("
  const UPDATED_WITH: string := "Updated with "

  /** Some section of the new plan is new or differs from the existing one. */
  predicate PlanChanged(plan: Json, existing: Json)
    requires existing.JObj?
  {
    plan.JObj? && ChangedSections(Dict.Keys(plan.fields), plan, existing) != []
  }

  /** The words after `PLAN_LINE`: which sections changed when a plan
      existed, else how many sections the new plan has. */
  function PlanDetail(plan: Json, existing: Json): (r: string)
    requires Truthy(existing) ==> existing.JObj?
    ensures StartsWith(r, CREATED_WITH) <==> !Truthy(existing)
    ensures StartsWith(r, UPDATED_SECTIONS) <==> Truthy(existing) && PlanChanged(plan, existing)
    ensures StartsWith(r, UPDATED_WITH) <==> Truthy(existing) && !PlanChanged(plan, existing)
  {
    var keys := if plan.JObj? then Dict.Keys(plan.fields) else [];
    if Truthy(existing) then
      if PlanChanged(plan, existing) then SectionsDetail(ChangedSections(keys, plan, existing))
      else WithDetail(|keys|)
    else CreatedDetail(keys)
  }

  /** "Updated sections (…)": the first five changed sections. */
  function SectionsDetail(changed: seq<string>): (r: string)
    ensures StartsWith(r, UPDATED_SECTIONS) && !StartsWith(r, CREATED_WITH) && !StartsWith(r, UPDATED_WITH)
  {
    var tail := FirstFive(changed) + ")";
    Opens(UPDATED_SECTIONS, tail, CREATED_WITH, UPDATED_WITH, 0, 8);
    UPDATED_SECTIONS + tail
  }

  /** "Updated with N sections": nothing changed. */
  function WithDetail(n: nat): (r: string)
    ensures StartsWith(r, UPDATED_WITH) && !StartsWith(r, CREATED_WITH) && !StartsWith(r, UPDATED_SECTIONS)
  {
    var tail := NatToString(n) + " sections";
    Opens(UPDATED_WITH, tail, CREATED_WITH, UPDATED_SECTIONS, 0, 8);
    UPDATED_WITH + tail
  }

  /** "Created with N sections (…)": there was no plan before. */
  function CreatedDetail(keys: seq<string>): (r: string)
    ensures StartsWith(r, CREATED_WITH) && !StartsWith(r, UPDATED_SECTIONS) && !StartsWith(r, UPDATED_WITH)
  {
    var tail := NatToString(|keys|) + " sections (" + FirstFive(keys) + ")";
    Opens(CREATED_WITH, tail, UPDATED_SECTIONS, UPDATED_WITH, 0, 0);
    CREATED_WITH + tail
  }

  /** A text opening with `p` opens with neither `q` nor `q'` when those
      differ from `p` within their common length. */
  lemma Opens(p: string, tail: string, q: string, q': string, i: nat, i': nat)
    requires i < |p| && i < |q| && p[i] != q[i]
    requires i' < |p| && i' < |q'| && p[i'] != q'[i']
    ensures StartsWith(p + tail, p) && !StartsWith(p + tail, q) && !StartsWith(p + tail, q')
  {
    var r := p + tail;
    assert r[..|p|] == p;
    assert r[i] == p[i] && r[i'] == p[i'];
  }

  function PlanLine(plan: Json, existing: Json): (r: string)
    requires Truthy(existing) ==> existing.JObj?
    ensures StartsWith(r, PLAN_LINE) && r[|PLAN_LINE|..] == PlanDetail(plan, existing)
  {
    PLAN_LINE + PlanDetail(plan, existing)
  }

  /** The value an update sets under `key`, if any. */
  function Updated(updates: seq<(string, Json)>, key: string): Option<Json> {
    Dict.Lookup(updates, key)
  }

  /** 1 for a key the update sets, 0 otherwise. */
  function Count(updates: seq<(string, Json)>, key: string): nat {
    if Updated(updates, key).Some? then 1 else 0
  }

  /** The update sets a list under "cve_ids" and text under
      "additional_info", if anything. */
  predicate SummaryReady(u: seq<(string, Json)>) {
    && (Updated(u, "cve_ids").Some? ==> Updated(u, "cve_ids").value.JList?)
    && (Updated(u, "additional_info").Some? ==> Updated(u, "additional_info").value.JStr?)
  }

  /** The CVE line, when the update sets the ids. */
  function CveLines(u: seq<(string, Json)>): (r: Result<seq<string>>)
    requires SummaryReady(u)
    ensures r.Raised? <==> Updated(u, "cve_ids").Some? && !IsStringList(Updated(u, "cve_ids").value)
    ensures r.Raised? ==> JoinStrings(Updated(u, "cve_ids").value.items, ", ") == Raised(r.message)
    ensures r.Ok? ==> |r.value| == Count(u, "cve_ids")
    ensures r.Ok? && Updated(u, "cve_ids").Some? ==> r.value[0] == CVE_LINE + Join(Strings(Updated(u, "cve_ids").value.items), ", ")
  {
    match Updated(u, "cve_ids")
    case None => Ok([])
    case Some(ids) =>
      match JoinStrings(ids.items, ", ")
      case Raised(m) => Raised(m)
      case Ok(joined) => Ok([CVE_LINE + joined])
  }

  /** The line on the added text, when the update sets it. */
  function InfoLines(u: seq<(string, Json)>): (r: seq<string>)
    requires SummaryReady(u)
    ensures |r| == Count(u, "additional_info")
    ensures Updated(u, "additional_info").Some? ==> r[0] == InfoLine(Updated(u, "additional_info").value.s)
  {
    match Updated(u, "additional_info")
    case None => []
    case Some(info) => [InfoLine(info.s)]
  }

  /** The line on the plan, when the update sets it. */
  function PlanLines(u: seq<(string, Json)>, existing: Json): (r: seq<string>)
    requires Truthy(existing) ==> existing.JObj?
    ensures |r| == Count(u, "remediation_plan")
    ensures Updated(u, "remediation_plan").Some? ==> r[0] == PlanLine(Updated(u, "remediation_plan").value, existing)
  {
    match Updated(u, "remediation_plan")
    case None => []
    case Some(plan) => [PlanLine(plan, existing)]
  }

  /** Where each part's line sits in the confirmation. */
  lemma LinesAt(c: seq<string>, i: seq<string>, p: seq<string>)
    requires |c| <= 1 && |i| <= 1 && |p| <= 1
    ensures var l := [SUMMARY_HEAD] + c + i + p;
      && |l| == 1 + |c| + |i| + |p|
      && l[0] == SUMMARY_HEAD
      && (|c| == 1 ==> l[1] == c[0])
      && (|i| == 1 ==> l[1 + |c|] == i[0])
      && (|p| == 1 ==> l[|l| - 1] == p[0])
  {
  }

  /** The lines of the confirmation: the heading, then one line for each key
      the update sets, in the order CVE ids, text, plan; the error of
      `", ".join` when the CVE list holds something other than strings. */
  function SummaryLines(updates: seq<(string, Json)>, state: Json): (r: Result<seq<string>>)
    requires StateShaped(state) && SummaryReady(updates)
    ensures r.Raised? <==> Updated(updates, "cve_ids").Some? && !IsStringList(Updated(updates, "cve_ids").value)
    ensures r.Raised? ==> JoinStrings(Updated(updates, "cve_ids").value.items, ", ") == Raised(r.message)
    ensures r.Ok? ==>
      && |r.value| == 1 + Count(updates, "cve_ids") + Count(updates, "additional_info") + Count(updates, "remediation_plan")
      && r.value[0] == SUMMARY_HEAD
      && (Updated(updates, "cve_ids").Some? ==>
            r.value[1] == CVE_LINE + Join(Strings(Updated(updates, "cve_ids").value.items), ", "))
      && (Updated(updates, "additional_info").Some? ==>
            r.value[1 + Count(updates, "cve_ids")] == InfoLine(Updated(updates, "additional_info").value.s))
      && (Updated(updates, "remediation_plan").Some? ==>
            r.value[|r.value| - 1] == PlanLine(Updated(updates, "remediation_plan").value, Get(state, "remediation_plan")))
  {
    match CveLines(updates)
    case Raised(m) => Raised(m)
    case Ok(c) =>
      var i := InfoLines(updates);
      var p := PlanLines(updates, Get(state, "remediation_plan"));
      LinesAt(c, i, p);
      Ok([SUMMARY_HEAD] + c + i + p)
  }

  /** A valid update sets a list under "cve_ids" and text under
      "additional_info". */
  lemma UpdatedShapes(u: seq<(string, Json)>, ids: seq<string>, info: string)
    requires UpdateOk(u, ids, info)
    ensures SummaryReady(u)
  {
    if Updated(u, "cve_ids").Some? {
      var i :| 0 <= i < |u| && Dict.Keys(u)[i] == "cve_ids";
      Dict.LookupEntry(u, i);
    }
    if Updated(u, "additional_info").Some? {
      var i :| 0 <= i < |u| && Dict.Keys(u)[i] == "additional_info";
      Dict.LookupEntry(u, i);
    }
  }

  /** The confirmation always opens with its heading line. */
  lemma SummaryOpensWithHead(updates: seq<(string, Json)>, state: Json)
    requires StateShaped(state) && SummaryReady(updates)
    requires SummaryLines(updates, state).Ok?
    ensures StartsWith(Join(SummaryLines(updates, state).value, "\n"), SUMMARY_HEAD)
  {
    var lines := SummaryLines(updates, state).value;
    JoinOpens(lines, "\n");
  }

  /** A join of at least one part opens with the first part. */
  lemma JoinOpens(parts: seq<string>, sep: string)
    requires parts != []
    ensures StartsWith(Join(parts, sep), parts[0])
  {
    var r := Join(parts, sep);
    if |parts| > 1 {
      var rest := sep + Join(parts[1..], sep);
      assert r == parts[0] + rest;
      assert (parts[0] + rest)[..|parts[0]|] == parts[0];
    }
  }

  /** The input the node reads: `state.get("user_input", "")`. */
  function UserInput(state: Json): Json
    requires state.JObj?
  {
    GetOr(state, "user_input", JStr(""))
  }

  /** The node's answer to a non-empty update: the confirmation first, then
      the update. */
  function Respond(u: seq<(string, Json)>, state: Json): (r: Result<seq<(string, Json)>>)
    requires StateShaped(state) && SummaryReady(u)
    ensures r.Raised? <==> SummaryLines(u, state).Raised?
    ensures r.Ok? ==>
      && |r.value| == |u| + 1
      && r.value[0] == ("output", JStr(Join(SummaryLines(u, state).value, "\n")))
      && r.value[1..] == u
      && forall k :: k != "output" ==> Dict.Lookup(r.value, k) == Dict.Lookup(u, k)
  {
    var lines := SummaryLines(u, state);
    if lines.Raised? then Raised(lines.message)
    else
      var output := JStr(Join(lines.value, "\n"));
      OutputFirst(output, u);
      Ok([("output", output)] + u)
  }

  /** `add_details_node(state)`: the output message, and every update passed
      through unchanged beside it; it raises when the update sets a CVE list
      holding something other than strings, at the join of the confirmation. */
  function AddDetailsNode(state: Json, parseReply: Reply, mergeReply: Reply, decode: Decoder): (r: Result<seq<(string, Json)>>)
    requires StateShaped(state)
    requires Truthy(UserInput(state)) ==> UserInput(state).JStr?
    ensures !Truthy(UserInput(state)) ==> r == Ok([("output", JStr(NO_INPUT))])
    ensures Truthy(UserInput(state)) ==>
      var u := ParseStateUpdates(UserInput(state).s, state, parseReply, mergeReply, decode);
      && (u == [] ==> r == Ok([("output", JStr(NOTHING_FOUND))]))
      && (u != [] ==> (r.Raised? <==> Updated(u, "cve_ids").Some? && !IsStringList(Updated(u, "cve_ids").value)))
      && (u != [] && r.Ok? ==>
            && |r.value| == |u| + 1
            && r.value[0] == ("output", JStr(Join(SummaryLines(u, state).value, "\n")))
            && r.value[1..] == u
            && forall k :: k != "output" ==> Dict.Lookup(r.value, k) == Dict.Lookup(u, k))
  {
    var input := UserInput(state);
    if !Truthy(input) then Ok([("output", JStr(NO_INPUT))])
    else
      var updates := ParseStateUpdates(input.s, state, parseReply, mergeReply, decode);
      if updates == [] then Ok([("output", JStr(NOTHING_FOUND))])
      else Respond(updates, state)
  }

  /** The output entry put before the updates hides none of them. */
  lemma OutputFirst(output: Json, u: seq<(string, Json)>)
    ensures ([("output", output)] + u)[1..] == u
    ensures forall k :: k != "output" ==> Dict.Lookup([("output", output)] + u, k) == Dict.Lookup(u, k)
  {
    var r := [("output", output)] + u;
    assert r[1..] == u;
  }

  /** A single number is sorted as itself. */
  lemma SingleNumber(x: Json)
    requires IsNumber(x)
    ensures SortedSetOf([x]) == Some([x])
  {
    var xs := [x];
    assert AllNumbers(xs);
    SortedNumbers(xs);
    assert xs[..0] == [];
    assert NumberSet(xs) == InsertNumber(NumberSet([]), x);
  }

  /** A model answer listing a number as a new CVE id, with no current ids,
      is accepted by the update and sorted as a number. */
  lemma NumericIdAccepted()
    ensures CveUpdate(JObj([("update_cve_ids", JBool(true)), ("cve_ids", JList([JInt(2025)]))]), [])
      == Some([("cve_ids", JList([JInt(2025)]))])
  {
    var result := JObj([("update_cve_ids", JBool(true)), ("cve_ids", JList([JInt(2025)]))]);
    assert Get(result, "cve_ids") == JList([JInt(2025)]);
    assert CveAsked(result);
    assert StrList([]) + [JInt(2025)] == [JInt(2025)];
    SingleNumber(JInt(2025));
  }
}

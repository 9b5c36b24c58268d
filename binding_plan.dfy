/**
  What `bind` does, as pure functions: the exact sequence of store calls it
  issues for a desired state (`Plan`) and the properties of that sequence and
  of its effect on the store.

  The desired state is a list of entries in insertion order, with distinct
  keys, as a PHP array iterates. The key `RdfType` names the resource's types;
  every other key names a property.
 */
module BindingPlan {
  import opened PhpArrays
  import opened GraphStore

  /** The reserved key: the `rdf:type` property of RDF Schema 1.1, section 3.3. */
  const RdfType: string := "http://www.w3.org/1999/02/22-rdf-syntax-ns#type"

  /** A desired value as PHP hands it in. */
  datatype RawValue =
    | ArrayValue(items: seq<string>)  // an array; its elements in string form
    | StringValue(s: string)
    | ScalarValue(text: string)       // an int, float, bool or null; `text` is its PHP string cast

  /** One key of the desired state and its value. */
  datatype Entry = Entry(key: string, value: RawValue)

  predicate DistinctKeys(data: seq<Entry>) {
    forall i, j :: 0 <= i < j < |data| ==> data[i].key != data[j].key
  }

  function KeysOf(es: seq<Entry>): (r: seq<string>)
    ensures |r| == |es| && forall i :: 0 <= i < |es| ==> r[i] == es[i].key
  {
    seq(|es|, i requires 0 <= i < |es| => es[i].key)
  }

  /** The desired values of an ordinary property: an array as it is, a string as a one-element list, anything else as nothing. */
  function NewValues(v: RawValue): (r: seq<string>)
    ensures v.ArrayValue? ==> r == v.items
    ensures v.StringValue? ==> r == [v.s]
    ensures v.ScalarValue? ==> r == []
    ensures forall x :: x in r <==> (v.ArrayValue? && x in v.items) || v == StringValue(x)
  {
    match v
    case ArrayValue(items) => items
    case StringValue(s) => [s]
    case ScalarValue(_) => []
  }

  /** The desired types: an array as it is, anything else wrapped as a one-element list. */
  function TypeUris(v: RawValue): (r: seq<string>)
    ensures v.ArrayValue? ==> r == v.items
    ensures v.StringValue? ==> r == [v.s]
    ensures v.ScalarValue? ==> r == [v.text]
  {
    match v
    case ArrayValue(items) => items
    case StringValue(s) => [s]
    case ScalarValue(t) => [t]
  }

  /** The string form of one stored value: a literal's text, a resource's URI, nothing for other elements. */
  function Canonical(e: Element): (r: seq<string>)
    ensures forall x :: x in r <==> Denotes(e, x)
  {
    match e
    case Literal(t) => [t]
    case ResourceRef(u) => [u]
    case OtherElement => []
  }

  /** The string forms of stored values: a literal's text, a resource's URI; other elements are dropped. */
  function Canonicals(es: seq<Element>): (r: seq<string>)
    ensures forall x :: x in r <==> Literal(x) in es || ResourceRef(x) in es
    ensures |r| <= |es|
    decreases |es|
  {
    if es == [] then []
    else
      var init := es[..|es| - 1];
      assert es == init + [es[|es| - 1]];
      Canonicals(init) + Canonical(es[|es| - 1])
  }

  /** What `getOldData` returns: an entry for every requested URI with the string forms of its stored values. */
  function OldData(uris: seq<string>, values: map<string, seq<Element>>): (r: map<string, seq<string>>)
    ensures forall u :: u in r <==> u in uris
  {
    map u | u in uris :: Canonicals(if u in values then values[u] else [])
  }

  lemma CanonicalsStep(es: seq<Element>, j: nat)
    requires j < |es|
    ensures Canonicals(es[..j + 1]) == Canonicals(es[..j]) + Canonical(es[j])
  {
    assert es[..j + 1][..j] == es[..j];
  }

  lemma OldDataStep(uris: seq<string>, i: nat, values: map<string, seq<Element>>)
    requires i < |uris|
    ensures OldData(uris[..i + 1], values)
         == OldData(uris[..i], values)[uris[i] := Canonicals(if uris[i] in values then values[uris[i]] else [])]
  {
    assert uris[..i + 1] == uris[..i] + [uris[i]];
  }

  function OldOf(oldData: map<string, seq<string>>, p: string): seq<string> {
    if p in oldData then oldData[p] else []
  }

  /** The entries that reach the property path: not the type key, and naming a property that exists. */
  function Surviving(data: seq<Entry>, schema: set<string>): (r: seq<Entry>)
    ensures forall e :: e in r <==> e in data && e.key != RdfType && e.key in schema
    ensures |r| <= |data|
    decreases |data|
  {
    if data == [] then []
    else
      var init := data[..|data| - 1];
      var e := data[|data| - 1];
      assert data == init + [e];
      Surviving(init, schema) + if e.key != RdfType && e.key in schema then [e] else []
  }

  lemma SurvivingStep(data: seq<Entry>, i: nat, schema: set<string>)
    requires i < |data|
    ensures Surviving(data[..i + 1], schema)
         == Surviving(data[..i], schema) + if data[i].key != RdfType && data[i].key in schema then [data[i]] else []
  {
    assert data[..i + 1][..i] == data[..i];
  }

  function RemoveTypeOps(ts: seq<string>): seq<Op> {
    seq(|ts|, i requires 0 <= i < |ts| => RemoveType(ts[i]))
  }

  function SetTypeOps(ts: seq<string>): seq<Op> {
    seq(|ts|, i requires 0 <= i < |ts| => SetType(ts[i]))
  }

  /** `bindTypes`: read the types, remove old minus new one by one, then add new minus old one by one. */
  function TypeOps(oldTypes: seq<string>, v: RawValue): seq<Op> {
    var n := TypeUris(v);
    [GetTypes] + RemoveTypeOps(Diff(oldTypes, n)) + SetTypeOps(Diff(n, oldTypes))
  }

  /** The calls one entry causes in the first loop of `bind`. */
  function GateStep(e: Entry, oldTypes: seq<string>): seq<Op> {
    if e.key == RdfType then TypeOps(oldTypes, e.value) else [PropertyExists(e.key)]
  }

  function GatePlan(data: seq<Entry>, oldTypes: seq<string>): seq<Op>
    decreases |data|
  {
    if data == [] then []
    else GatePlan(data[..|data| - 1], oldTypes) + GateStep(data[|data| - 1], oldTypes)
  }

  function RemovalOps(p: string, vs: seq<string>): seq<Op> {
    seq(|vs|, i requires 0 <= i < |vs| => RemovePropertyValue(p, vs[i]))
  }

  /** The values of `e` to remove: old minus new. */
  function Removals(e: Entry, oldData: map<string, seq<string>>): seq<string> {
    Diff(OldOf(oldData, e.key), NewValues(e.value))
  }

  /** The values of `e` to add: new minus old. */
  function Additions(e: Entry, oldData: map<string, seq<string>>): seq<string> {
    Diff(NewValues(e.value), OldOf(oldData, e.key))
  }

  function PropertyPlan(props: seq<Entry>, oldData: map<string, seq<string>>): seq<Op>
    decreases |props|
  {
    if props == [] then []
    else
      var e := props[|props| - 1];
      PropertyPlan(props[..|props| - 1], oldData) + RemovalOps(e.key, Removals(e, oldData))
  }

  /** `$toAdd`: one addition per property whose addition list is not empty, in order. */
  function ToAdd(props: seq<Entry>, oldData: map<string, seq<string>>): seq<Addition>
    decreases |props|
  {
    if props == [] then []
    else
      var e := props[|props| - 1];
      ToAdd(props[..|props| - 1], oldData) + if Additions(e, oldData) != [] then [Addition(e.key, Additions(e, oldData))] else []
  }

  /** The calls of `bind` after its first loop: one read of the old values, the removals, one `setPropertiesValues`. */
  function ValuePlan(props: seq<Entry>, values: map<string, seq<Element>>): seq<Op> {
    var oldData := OldData(KeysOf(props), values);
    [GetPropertiesValues(KeysOf(props))] + PropertyPlan(props, oldData) + [SetPropertiesValues(ToAdd(props, oldData))]
  }

  /** Every store call of a `bind` that raises nothing, from state `st`, in order. */
  function Plan(data: seq<Entry>, schema: set<string>, st: State): seq<Op> {
    GatePlan(data, st.types) + ValuePlan(Surviving(data, schema), st.values)
  }

  // How far a run has got through the plan: the prefixes the loops of `bind` and `bindTypes` reach.

  lemma {:induction false} GatePlanPrefix(data: seq<Entry>, i: nat, oldTypes: seq<string>)
    requires i <= |data|
    ensures GatePlan(data[..i], oldTypes) <= GatePlan(data, oldTypes)
    decreases |data|
  {
    if i < |data| {
      var init := data[..|data| - 1];
      GatePlanPrefix(init, i, oldTypes);
      assert init[..i] == data[..i];
      var whole := GatePlan(data, oldTypes);
      assert whole == GatePlan(init, oldTypes) + GateStep(data[|data| - 1], oldTypes);
      assert GatePlan(init, oldTypes) <= whole;
      PrefixTrans(GatePlan(data[..i], oldTypes), GatePlan(init, oldTypes), whole);
    } else {
      assert data[..i] == data;
    }
  }

  lemma GatePlanStep(data: seq<Entry>, i: nat, oldTypes: seq<string>)
    requires i < |data|
    ensures GatePlan(data[..i + 1], oldTypes) == GatePlan(data[..i], oldTypes) + GateStep(data[i], oldTypes)
  {
    assert data[..i + 1][..i] == data[..i];
  }

  lemma {:induction false} PropertyPlanPrefix(props: seq<Entry>, j: nat, oldData: map<string, seq<string>>)
    requires j <= |props|
    ensures PropertyPlan(props[..j], oldData) <= PropertyPlan(props, oldData)
    decreases |props|
  {
    if j < |props| {
      var init := props[..|props| - 1];
      var e := props[|props| - 1];
      PropertyPlanPrefix(init, j, oldData);
      assert init[..j] == props[..j];
      var whole := PropertyPlan(props, oldData);
      assert whole == PropertyPlan(init, oldData) + RemovalOps(e.key, Removals(e, oldData));
      assert PropertyPlan(init, oldData) <= whole;
      PrefixTrans(PropertyPlan(props[..j], oldData), PropertyPlan(init, oldData), whole);
    } else {
      assert props[..j] == props;
    }
  }

  lemma PropertyPlanStep(props: seq<Entry>, j: nat, oldData: map<string, seq<string>>)
    requires j < |props|
    ensures PropertyPlan(props[..j + 1], oldData)
         == PropertyPlan(props[..j], oldData) + RemovalOps(props[j].key, Removals(props[j], oldData))
    ensures ToAdd(props[..j + 1], oldData)
         == ToAdd(props[..j], oldData)
            + if Additions(props[j], oldData) != [] then [Addition(props[j].key, Additions(props[j], oldData))] else []
  {
    assert props[..j + 1][..j] == props[..j];
  }

  lemma TypeOpsKeepValues(st: State, oldTypes: seq<string>, v: RawValue)
    ensures ApplyAll(st, TypeOps(oldTypes, v)).values == st.values
  {
    var ops := TypeOps(oldTypes, v);
    assert forall op :: op in ops ==> !IsValueMutation(op);
    ApplyAllKeepsValues(st, ops);
  }
}

/**
  What a complete run of `bind` promises about the store, proved about the
  plan of calls in `BindingPlan`: every kept property ends with exactly the
  desired values, every other property is left alone, the types end as
  desired, a second identical run changes nothing, and the calls come in the
  documented order.

  Values are compared by their string forms (`Shown`): `bind` compares old and
  new values as strings, so a stored resource and a wanted string with the
  same text are the same value to it.
 */
module BindingProperties {
  import opened PhpArrays
  import opened GraphStore
  import opened BindingPlan

  /** `x` is the string form of some value stored for property `p`. */
  predicate Shown(st: State, p: string, x: string) {
    Literal(x) in ValuesOf(st, p) || ResourceRef(x) in ValuesOf(st, p)
  }

  /** Some addition in `adds` adds `x` to property `p`. */
  predicate AddedIn(adds: seq<Addition>, p: string, x: string) {
    exists i :: 0 <= i < |adds| && adds[i].property == p && x in adds[i].values
  }

  /** The properties `adds` writes to, in order. */
  function PropertiesOf(adds: seq<Addition>): (r: seq<string>)
    ensures |r| == |adds| && forall i :: 0 <= i < |adds| ==> r[i] == adds[i].property
  {
    seq(|adds|, i requires 0 <= i < |adds| => adds[i].property)
  }

  // ---------------------------------------------------------------------------
  // The effect of each kind of call

  /** The removals for one property strike exactly the removed strings from it and touch nothing else. */
  lemma {:induction false} RemovalOpsEffect(st: State, p: string, vs: seq<string>)
    ensures ApplyAll(st, RemovalOps(p, vs)).types == st.types
    ensures forall q :: q != p ==> ValuesOf(ApplyAll(st, RemovalOps(p, vs)), q) == ValuesOf(st, q)
    ensures forall x :: Shown(ApplyAll(st, RemovalOps(p, vs)), p, x) <==> Shown(st, p, x) && x !in vs
    decreases |vs|
  {
    var ops := RemovalOps(p, vs);
    if vs == [] {
      assert ops == [];
    } else {
      var next := Apply(st, RemovePropertyValue(p, vs[0]));
      assert ops[0] == RemovePropertyValue(p, vs[0]);
      assert ops[1..] == RemovalOps(p, vs[1..]);
      assert ApplyAll(st, ops) == ApplyAll(next, RemovalOps(p, vs[1..]));
      RemovalOpsEffect(next, p, vs[1..]);
      forall x
        ensures Shown(next, p, x) <==> Shown(st, p, x) && x != vs[0]
      {
        if p in st.values {
          assert ValuesOf(next, p) == WithoutValue(st.values[p], vs[0]);
        }
      }
      assert forall x :: x in vs <==> x == vs[0] || x in vs[1..] by {
        assert vs == [vs[0]] + vs[1..];
      }
    }
  }

  lemma DistinctKeysInit(props: seq<Entry>)
    requires props != [] && DistinctKeys(props)
    ensures DistinctKeys(props[..|props| - 1])
    ensures forall e :: e in props[..|props| - 1] ==> e.key != props[|props| - 1].key
  {
    var init := props[..|props| - 1];
    forall e | e in init
      ensures e.key != props[|props| - 1].key
    {
      var i :| 0 <= i < |init| && init[i] == e;
      assert props[i] == e;
    }
  }

  /** The removal phase leaves the types and every property no entry names alone. */
  lemma {:induction false} PropertyPlanFrame(st: State, props: seq<Entry>, oldData: map<string, seq<string>>)
    ensures ApplyAll(st, PropertyPlan(props, oldData)).types == st.types
    ensures forall q :: q !in KeysOf(props) ==>
              ValuesOf(ApplyAll(st, PropertyPlan(props, oldData)), q) == ValuesOf(st, q)
    decreases |props|
  {
    if props != [] {
      var init := props[..|props| - 1];
      var last := props[|props| - 1];
      var rem := RemovalOps(last.key, Removals(last, oldData));
      assert PropertyPlan(props, oldData) == PropertyPlan(init, oldData) + rem;
      PropertyPlanFrame(st, init, oldData);
      ApplyAllConcat(st, PropertyPlan(init, oldData), rem);
      RemovalOpsEffect(ApplyAll(st, PropertyPlan(init, oldData)), last.key, Removals(last, oldData));
      assert KeysOf(props) == KeysOf(init) + [last.key];
    }
  }

  /** The removal phase, for entries with distinct keys: each entry's property loses exactly its removals. */
  lemma {:induction false} PropertyPlanEffect(st: State, props: seq<Entry>, oldData: map<string, seq<string>>)
    requires DistinctKeys(props)
    ensures forall e, x :: e in props ==>
              (Shown(ApplyAll(st, PropertyPlan(props, oldData)), e.key, x)
               <==> Shown(st, e.key, x) && x !in Removals(e, oldData))
    decreases |props|
  {
    if props != [] {
      var init := props[..|props| - 1];
      var last := props[|props| - 1];
      var rem := RemovalOps(last.key, Removals(last, oldData));
      assert props == init + [last];
      DistinctKeysInit(props);
      PropertyPlanEffect(st, init, oldData);
      var mid := ApplyAll(st, PropertyPlan(init, oldData));
      assert PropertyPlan(props, oldData) == PropertyPlan(init, oldData) + rem;
      ApplyAllConcat(st, PropertyPlan(init, oldData), rem);
      RemovalOpsEffect(mid, last.key, Removals(last, oldData));
      var fin := ApplyAll(mid, rem);
      forall e, x | e in props
        ensures Shown(fin, e.key, x) <==> Shown(st, e.key, x) && x !in Removals(e, oldData)
      {
        if e != last {
          assert e in init;
        } else {
          assert ValuesOf(mid, last.key) == ValuesOf(st, last.key) by {
            assert last.key !in KeysOf(init);
            PropertyPlanFrame(st, init, oldData);
          }
        }
      }
    }
  }

  /** The literals of `vs` are exactly the strings of `vs`, as literals. */
  lemma LiteralsShown(vs: seq<string>, x: string)
    ensures Literal(x) in Literals(vs) <==> x in vs
    ensures ResourceRef(x) !in Literals(vs)
  {
    if x in vs {
      assert exists v :: v in vs && Literal(x) == Literal(v);
    }
  }

  lemma AddedInCons(adds: seq<Addition>, p: string, x: string)
    requires adds != []
    ensures AddedIn(adds, p, x) <==> (adds[0].property == p && x in adds[0].values) || AddedIn(adds[1..], p, x)
  {
    if AddedIn(adds, p, x) {
      var i :| 0 <= i < |adds| && adds[i].property == p && x in adds[i].values;
      if i > 0 {
        assert adds[1..][i - 1] == adds[i];
      }
    }
    if AddedIn(adds[1..], p, x) {
      var i :| 0 <= i < |adds[1..]| && adds[1..][i].property == p && x in adds[1..][i].values;
      assert adds[i + 1] == adds[1..][i];
    }
  }

  /** `setPropertiesValues` keeps every stored value and adds every listed one; unlisted properties keep theirs. */
  lemma {:induction false} AddAllEffect(st: State, adds: seq<Addition>)
    ensures forall q :: q !in PropertiesOf(adds) ==>
              ValuesOf(st.(values := AddAll(st.values, adds)), q) == ValuesOf(st, q)
    ensures forall p, x :: Shown(st.(values := AddAll(st.values, adds)), p, x) <==> Shown(st, p, x) || AddedIn(adds, p, x)
    decreases |adds|
  {
    if adds != [] {
      var a := adds[0];
      var before := ValuesOf(st, a.property);
      var mid := st.(values := st.values[a.property := before + Literals(a.values)]);
      assert AddAll(st.values, adds) == AddAll(mid.values, adds[1..]);
      AddAllEffect(mid, adds[1..]);
      forall p, x
        ensures Shown(mid, p, x) <==> Shown(st, p, x) || (p == a.property && x in a.values)
      {
        if p == a.property {
          LiteralsShown(a.values, x);
        }
      }
      forall p, x
        ensures AddedIn(adds, p, x) <==> (a.property == p && x in a.values) || AddedIn(adds[1..], p, x)
      {
        AddedInCons(adds, p, x);
      }
      assert PropertiesOf(adds) == [a.property] + PropertiesOf(adds[1..]);
    }
  }

  /** `$toAdd` holds one addition per entry with something to add, and nothing else. */
  lemma {:induction false} ToAddEntries(props: seq<Entry>, oldData: map<string, seq<string>>)
    ensures forall a :: a in ToAdd(props, oldData) <==>
              exists e :: e in props && Additions(e, oldData) != [] && a == Addition(e.key, Additions(e, oldData))
    decreases |props|
  {
    if props != [] {
      var init := props[..|props| - 1];
      var last := props[|props| - 1];
      assert props == init + [last];
      ToAddEntries(init, oldData);
      forall a | exists e :: e in props && Additions(e, oldData) != [] && a == Addition(e.key, Additions(e, oldData))
        ensures a in ToAdd(props, oldData)
      {
        var e :| e in props && Additions(e, oldData) != [] && a == Addition(e.key, Additions(e, oldData));
        if e != last {
          assert e in init;
        }
      }
    }
  }

  /** With distinct keys, what `$toAdd` adds to an entry's property is exactly that entry's additions. */
  lemma AddedInToAdd(props: seq<Entry>, oldData: map<string, seq<string>>)
    requires DistinctKeys(props)
    ensures forall e, x :: e in props ==> (AddedIn(ToAdd(props, oldData), e.key, x) <==> x in Additions(e, oldData))
    ensures forall q :: q in PropertiesOf(ToAdd(props, oldData)) ==> q in KeysOf(props)
  {
    var adds := ToAdd(props, oldData);
    ToAddEntries(props, oldData);
    forall e, x | e in props
      ensures AddedIn(adds, e.key, x) <==> x in Additions(e, oldData)
    {
      if AddedIn(adds, e.key, x) {
        var i :| 0 <= i < |adds| && adds[i].property == e.key && x in adds[i].values;
        assert adds[i] in adds;
        var e' :| e' in props && Additions(e', oldData) != [] && adds[i] == Addition(e'.key, Additions(e', oldData));
        var k :| 0 <= k < |props| && props[k] == e;
        var k' :| 0 <= k' < |props| && props[k'] == e';
        assert k == k';
      }
      if x in Additions(e, oldData) {
        assert Addition(e.key, Additions(e, oldData)) in adds;
        var i :| 0 <= i < |adds| && adds[i] == Addition(e.key, Additions(e, oldData));
      }
    }
    forall q | q in PropertiesOf(adds)
      ensures q in KeysOf(props)
    {
      var i :| 0 <= i < |adds| && PropertiesOf(adds)[i] == q;
      assert adds[i] in adds;
      var e :| e in props && Additions(e, oldData) != [] && adds[i] == Addition(e.key, Additions(e, oldData));
      var k :| 0 <= k < |props| && props[k] == e;
      assert KeysOf(props)[k] == q;
    }
  }

  /** The old data `bind` reads for an entry's property holds the string forms of its stored values. */
  lemma OldDataShown(props: seq<Entry>, st: State, e: Entry, x: string)
    requires e in props
    ensures x in OldOf(OldData(KeysOf(props), st.values), e.key) <==> Shown(st, e.key, x)
  {
    var k :| 0 <= k < |props| && props[k] == e;
    assert KeysOf(props)[k] == e.key;
  }

  lemma SurvivingDistinct(data: seq<Entry>, schema: set<string>)
    requires DistinctKeys(data)
    ensures DistinctKeys(Surviving(data, schema))
    decreases |data|
  {
    if data != [] {
      var init := data[..|data| - 1];
      DistinctKeysInit(data);
      SurvivingDistinct(init, schema);
    }
  }

  /**
    Everything after the first loop of `bind`, run to completion: each kept
    entry's property ends with exactly the desired strings, other properties
    and the types are left alone.
   */
  lemma ValuePlanEffect(st: State, props: seq<Entry>)
    requires DistinctKeys(props)
    ensures ApplyAll(st, ValuePlan(props, st.values)).types == st.types
    ensures forall q :: q !in KeysOf(props) ==>
              ValuesOf(ApplyAll(st, ValuePlan(props, st.values)), q) == ValuesOf(st, q)
    ensures forall e, x :: e in props ==>
              (Shown(ApplyAll(st, ValuePlan(props, st.values)), e.key, x) <==> x in NewValues(e.value))
  {
    var oldData := OldData(KeysOf(props), st.values);
    var mid := ApplyAll(st, PropertyPlan(props, oldData));
    var adds := ToAdd(props, oldData);
    ValuePlanState(st, props);
    var fin := mid.(values := AddAll(mid.values, adds));
    PropertyPlanFrame(st, props, oldData);
    AddAllEffect(mid, adds);
    AddedInToAdd(props, oldData);
    assert forall e, x :: e in props ==> (Shown(mid, e.key, x) <==> Shown(st, e.key, x) && x !in Removals(e, oldData)) by {
      PropertyPlanEffect(st, props, oldData);
    }
    forall e, x | e in props
      ensures Shown(fin, e.key, x) <==> x in NewValues(e.value)
    {
      OldDataShown(props, st, e, x);
    }
  }

  /** The state the value part of `bind` leaves: the removals, then the one addition of `$toAdd`. */
  lemma ValuePlanState(st: State, props: seq<Entry>)
    ensures
      var oldData := OldData(KeysOf(props), st.values);
      var mid := ApplyAll(st, PropertyPlan(props, oldData));
      ApplyAll(st, ValuePlan(props, st.values)) == mid.(values := AddAll(mid.values, ToAdd(props, oldData)))
  {
    var oldData := OldData(KeysOf(props), st.values);
    var read := [GetPropertiesValues(KeysOf(props))];
    var removals := PropertyPlan(props, oldData);
    var last := [SetPropertiesValues(ToAdd(props, oldData))];
    assert ValuePlan(props, st.values) == read + removals + last;
    ApplyAllConcat(st, read + removals, last);
    ApplyAllConcat(st, read, removals);
    assert ApplyAll(st, read) == st;
  }

  // ---------------------------------------------------------------------------
  // Types

  lemma {:induction false} RemoveTypesEffect(st: State, ts: seq<string>)
    ensures ApplyAll(st, RemoveTypeOps(ts)).values == st.values
    ensures forall x :: x in ApplyAll(st, RemoveTypeOps(ts)).types <==> x in st.types && x !in ts
    decreases |ts|
  {
    var ops := RemoveTypeOps(ts);
    if ts == [] {
      assert ops == [];
    } else {
      assert ops[0] == RemoveType(ts[0]) && ops[1..] == RemoveTypeOps(ts[1..]);
      RemoveTypesEffect(Apply(st, RemoveType(ts[0])), ts[1..]);
      assert ts == [ts[0]] + ts[1..];
    }
  }

  lemma {:induction false} SetTypesEffect(st: State, ts: seq<string>)
    ensures ApplyAll(st, SetTypeOps(ts)) == st.(types := st.types + ts)
    decreases |ts|
  {
    var ops := SetTypeOps(ts);
    if ts == [] {
      assert ops == [] && st.types + ts == st.types;
    } else {
      assert ops[0] == SetType(ts[0]) && ops[1..] == SetTypeOps(ts[1..]);
      SetTypesEffect(Apply(st, SetType(ts[0])), ts[1..]);
      assert st.types + [ts[0]] + ts[1..] == st.types + ts;
    }
  }

  /** `bindTypes` run to completion: the resource's types are exactly the wanted ones; values are untouched. */
  lemma TypeOpsEffect(st: State, v: RawValue)
    ensures ApplyAll(st, TypeOps(st.types, v)).values == st.values
    ensures forall x :: x in ApplyAll(st, TypeOps(st.types, v)).types <==> x in TypeUris(v)
  {
    var n := TypeUris(v);
    var removals := RemoveTypeOps(Diff(st.types, n));
    var additions := SetTypeOps(Diff(n, st.types));
    ApplyAllConcat(st, [GetTypes] + removals, additions);
    ApplyAllConcat(st, [GetTypes], removals);
    assert ApplyAll(st, [GetTypes]) == st;
    RemoveTypesEffect(st, Diff(st.types, n));
    SetTypesEffect(ApplyAll(st, removals), Diff(n, st.types));
  }

  /**
    The first loop of `bind`, run to completion: values are untouched; the
    types are those of the type entry when there is one, and unchanged
    otherwise.
   */
  lemma {:induction false} GatePlanEffect(st: State, data: seq<Entry>)
    requires DistinctKeys(data)
    ensures ApplyAll(st, GatePlan(data, st.types)).values == st.values
    ensures (forall i :: 0 <= i < |data| ==> data[i].key != RdfType) ==>
              ApplyAll(st, GatePlan(data, st.types)).types == st.types
    ensures forall i, x :: 0 <= i < |data| && data[i].key == RdfType ==>
              (x in ApplyAll(st, GatePlan(data, st.types)).types <==> x in TypeUris(data[i].value))
    decreases |data|
  {
    if data != [] {
      var init := data[..|data| - 1];
      var last := data[|data| - 1];
      DistinctKeysInit(data);
      GatePlanEffect(st, init);
      var mid := ApplyAll(st, GatePlan(init, st.types));
      ApplyAllConcat(st, GatePlan(init, st.types), GateStep(last, st.types));
      if last.key == RdfType {
        forall i | 0 <= i < |init|
          ensures init[i].key != RdfType && data[i].key != RdfType
        {
          assert init[i] in init && data[i] == init[i];
        }
        TypeOpsEffect(mid, last.value);
      } else {
        assert ApplyAll(mid, [PropertyExists(last.key)]) == mid;
        forall i | 0 <= i < |data| && data[i].key == RdfType
          ensures i < |init| && init[i] == data[i]
        {
        }
      }
    }
  }

  // ---------------------------------------------------------------------------
  // What a complete run of `bind` promises

  /**
    After a run of `bind` that raised nothing, every kept entry's property
    shows exactly the desired strings (an array as given, a string as itself,
    any other scalar as nothing at all); the type key, unknown properties and
    keys not named keep their values; the types are the wanted ones when the
    type key is given, and unchanged when it is not.
   */
  lemma BindReconciles(data: seq<Entry>, schema: set<string>, st: State)
    requires DistinctKeys(data)
    ensures
      var fin := ApplyAll(st, Plan(data, schema, st));
      && (forall i, x :: 0 <= i < |data| && data[i].key != RdfType && data[i].key in schema ==>
            (Shown(fin, data[i].key, x) <==> x in NewValues(data[i].value)))
      && (forall q :: (q == RdfType || q !in schema || q !in KeysOf(data)) ==>
            ValuesOf(fin, q) == ValuesOf(st, q))
      && ((forall i :: 0 <= i < |data| ==> data[i].key != RdfType) ==> fin.types == st.types)
      && (forall i, x :: 0 <= i < |data| && data[i].key == RdfType ==>
            (x in fin.types <==> x in TypeUris(data[i].value)))
  {
    var props := Surviving(data, schema);
    var gate := GatePlan(data, st.types);
    GatePlanEffect(st, data);
    var mid := ApplyAll(st, gate);
    ApplyAllConcat(st, gate, ValuePlan(props, st.values));
    assert ValuePlan(props, st.values) == ValuePlan(props, mid.values);
    SurvivingDistinct(data, schema);
    ValuePlanEffect(mid, props);
    var fin := ApplyAll(mid, ValuePlan(props, mid.values));
    forall i, x | 0 <= i < |data| && data[i].key != RdfType && data[i].key in schema
      ensures Shown(fin, data[i].key, x) <==> x in NewValues(data[i].value)
    {
      assert data[i] in props;
    }
  }

  /**
    A kept property given an int, float, bool or null loses every value it
    showed: such a value normalises to no values at all.
   */
  lemma ScalarClearsProperty(data: seq<Entry>, schema: set<string>, st: State, i: nat)
    requires DistinctKeys(data)
    requires i < |data| && data[i].key != RdfType && data[i].key in schema && data[i].value.ScalarValue?
    ensures forall x :: !Shown(ApplyAll(st, Plan(data, schema, st)), data[i].key, x)
  {
    BindReconciles(data, schema, st);
  }

  // ---------------------------------------------------------------------------
  // The calls themselves

  /** The first loop of `bind` only checks properties and reads or changes types; it never reads or writes a value. */
  lemma {:induction false} GatePlanWritesNoValue(data: seq<Entry>, oldTypes: seq<string>)
    ensures forall op :: op in GatePlan(data, oldTypes) ==> op.PropertyExists? || op.GetTypes? || IsTypeMutation(op)
    ensures forall op :: op in GatePlan(data, oldTypes) ==> !IsValueMutation(op) && !op.GetPropertiesValues?
    decreases |data|
  {
    if data != [] {
      GatePlanWritesNoValue(data[..|data| - 1], oldTypes);
    }
  }

  lemma RemovalOpsMembers(p: string, vs: seq<string>)
    ensures forall op :: op in RemovalOps(p, vs) <==> exists v :: v in vs && op == RemovePropertyValue(p, v)
  {
    var ops := RemovalOps(p, vs);
    forall op | exists v :: v in vs && op == RemovePropertyValue(p, v)
      ensures op in ops
    {
      var v :| v in vs && op == RemovePropertyValue(p, v);
      var k :| 0 <= k < |vs| && vs[k] == v;
      assert ops[k] == op;
    }
  }

  /** The removal phase issues `removePropertyValue(p, v)` exactly for the removals of an entry with key `p`. */
  lemma {:induction false} PropertyPlanMembers(props: seq<Entry>, oldData: map<string, seq<string>>)
    ensures forall op :: op in PropertyPlan(props, oldData) <==>
              exists e, v :: e in props && v in Removals(e, oldData) && op == RemovePropertyValue(e.key, v)
    decreases |props|
  {
    if props != [] {
      var init := props[..|props| - 1];
      var last := props[|props| - 1];
      assert props == init + [last];
      PropertyPlanMembers(init, oldData);
      RemovalOpsMembers(last.key, Removals(last, oldData));
      forall op | exists e, v :: e in props && v in Removals(e, oldData) && op == RemovePropertyValue(e.key, v)
        ensures op in PropertyPlan(props, oldData)
      {
        var e, v :| e in props && v in Removals(e, oldData) && op == RemovePropertyValue(e.key, v);
        if e != last {
          assert e in init;
        }
      }
    }
  }

  /**
    The order of the calls of `bind`: every type change comes before the read
    of the old values and before every value change, and the one `setPropertiesValues` call, carrying `$toAdd`,
    is the last call, made whether or not there is anything to add.
   */
  lemma PlanOrder(data: seq<Entry>, schema: set<string>, st: State)
    ensures
      var plan := Plan(data, schema, st);
      var props := Surviving(data, schema);
      && |plan| > 0
      && plan[|plan| - 1] == SetPropertiesValues(ToAdd(props, OldData(KeysOf(props), st.values)))
      && (forall i :: 0 <= i < |plan| - 1 ==> !plan[i].SetPropertiesValues?)
      && (forall i, j :: 0 <= i < j < |plan| && IsValueMutation(plan[i]) ==> !IsTypeMutation(plan[j]))
      && (forall i, j :: 0 <= i < j < |plan| && plan[i].GetPropertiesValues? ==> !IsTypeMutation(plan[j]))
  {
    var props := Surviving(data, schema);
    var oldData := OldData(KeysOf(props), st.values);
    PlanParts(data, schema, st);
    GatePlanWritesNoValue(data, st.types);
    ValueReadsAndRemovals(props, oldData);
    OrderOfParts(Plan(data, schema, st), GatePlan(data, st.types),
                 [GetPropertiesValues(KeysOf(props))] + PropertyPlan(props, oldData),
                 SetPropertiesValues(ToAdd(props, oldData)));
  }

  /** The plan of `bind` in three parts: the first loop, the read and the removals, the one addition. */
  lemma PlanParts(data: seq<Entry>, schema: set<string>, st: State)
    ensures
      var props := Surviving(data, schema);
      var oldData := OldData(KeysOf(props), st.values);
      Plan(data, schema, st)
        == GatePlan(data, st.types) + ([GetPropertiesValues(KeysOf(props))] + PropertyPlan(props, oldData))
           + [SetPropertiesValues(ToAdd(props, oldData))]
  {
  }

  /** Before its one addition, the value part of `bind` only reads and removes. */
  lemma ValueReadsAndRemovals(props: seq<Entry>, oldData: map<string, seq<string>>)
    ensures forall op :: op in [GetPropertiesValues(KeysOf(props))] + PropertyPlan(props, oldData) ==>
              op.GetPropertiesValues? || op.RemovePropertyValue?
  {
    PropertyPlanMembers(props, oldData);
  }

  /** Reads and type changes, then reads and removals, then one addition: the order `PlanOrder` states. */
  lemma OrderOfParts(plan: seq<Op>, gate: seq<Op>, tail: seq<Op>, last: Op)
    requires plan == gate + tail + [last]
    requires forall op :: op in gate ==> !IsValueMutation(op) && !op.GetPropertiesValues?
    requires forall op :: op in tail ==> op.GetPropertiesValues? || op.RemovePropertyValue?
    requires last.SetPropertiesValues?
    ensures |plan| > 0 && plan[|plan| - 1] == last
    ensures forall i :: 0 <= i < |plan| - 1 ==> !plan[i].SetPropertiesValues?
    ensures forall i, j :: 0 <= i < j < |plan| && IsValueMutation(plan[i]) ==> !IsTypeMutation(plan[j])
    ensures forall i, j :: 0 <= i < j < |plan| && plan[i].GetPropertiesValues? ==> !IsTypeMutation(plan[j])
  {
    forall i | 0 <= i < |plan| - 1
      ensures !plan[i].SetPropertiesValues? && (IsValueMutation(plan[i]) || plan[i].GetPropertiesValues? ==> i >= |gate|)
    {
      if i < |gate| {
        assert plan[i] in gate;
      } else {
        assert plan[i] in tail;
      }
    }
    forall j | |gate| < j < |plan|
      ensures !IsTypeMutation(plan[j])
    {
      if j < |plan| - 1 {
        assert plan[j] in tail;
      }
    }
  }

  /** The removals in the whole plan are those of the removal phase. */
  lemma PlanRemovals(data: seq<Entry>, schema: set<string>, st: State)
    ensures
      var props := Surviving(data, schema);
      var oldData := OldData(KeysOf(props), st.values);
      forall p, v :: RemovePropertyValue(p, v) in Plan(data, schema, st) <==>
        exists e, v' :: e in props && v' in Removals(e, oldData) && RemovePropertyValue(p, v) == RemovePropertyValue(e.key, v')
  {
    var props := Surviving(data, schema);
    var oldData := OldData(KeysOf(props), st.values);
    PlanParts(data, schema, st);
    GatePlanWritesNoValue(data, st.types);
    RemovalsOfParts(Plan(data, schema, st), GatePlan(data, st.types), GetPropertiesValues(KeysOf(props)),
                    PropertyPlan(props, oldData), SetPropertiesValues(ToAdd(props, oldData)));
    PropertyPlanMembers(props, oldData);
  }

  /** In a plan whose only value changes outside `removals` are a read and an addition, the removals are those of `removals`. */
  lemma RemovalsOfParts(plan: seq<Op>, gate: seq<Op>, read: Op, removals: seq<Op>, last: Op)
    requires plan == gate + ([read] + removals) + [last]
    requires forall op :: op in gate ==> !IsValueMutation(op)
    requires !read.RemovePropertyValue? && !last.RemovePropertyValue?
    ensures forall p, v :: RemovePropertyValue(p, v) in plan <==> RemovePropertyValue(p, v) in removals
  {
  }

  /**
    With distinct keys, `bind` removes a value of a property exactly when the
    property is kept, the value is stored for it and it is not wanted; it
    removes nothing from the type key, from unknown properties or from keys it
    was not given.
   */
  lemma RemovalCalls(data: seq<Entry>, schema: set<string>, st: State)
    requires DistinctKeys(data)
    ensures forall i, v :: 0 <= i < |data| && data[i].key != RdfType && data[i].key in schema ==>
              (RemovePropertyValue(data[i].key, v) in Plan(data, schema, st)
               <==> Shown(st, data[i].key, v) && v !in NewValues(data[i].value))
    ensures forall p, v :: RemovePropertyValue(p, v) in Plan(data, schema, st) ==>
              p != RdfType && p in schema && p in KeysOf(data)
  {
    var props := Surviving(data, schema);
    var oldData := OldData(KeysOf(props), st.values);
    var plan := Plan(data, schema, st);
    PlanRemovals(data, schema, st);
    forall i, v | 0 <= i < |data| && data[i].key != RdfType && data[i].key in schema
      ensures RemovePropertyValue(data[i].key, v) in plan <==> Shown(st, data[i].key, v) && v !in NewValues(data[i].value)
    {
      var e := data[i];
      assert e in props;
      OldDataShown(props, st, e, v);
      if RemovePropertyValue(e.key, v) in plan {
        var e', v' :| e' in props && v' in Removals(e', oldData) && RemovePropertyValue(e.key, v) == RemovePropertyValue(e'.key, v');
        var k :| 0 <= k < |data| && data[k] == e';
        assert k == i;
      }
    }
    forall p, v | RemovePropertyValue(p, v) in plan
      ensures p != RdfType && p in schema && p in KeysOf(data)
    {
      var e, v' :| e in props && v' in Removals(e, oldData) && RemovePropertyValue(p, v) == RemovePropertyValue(e.key, v');
      var k :| 0 <= k < |data| && data[k] == e;
      assert KeysOf(data)[k] == p;
    }
  }

  // ---------------------------------------------------------------------------
  // Idempotence

  /** Reads and an empty `setPropertiesValues` leave the store as it is. */
  lemma {:induction false} InertCalls(st: State, ops: seq<Op>)
    requires forall op :: op in ops ==> IsRead(op) || op == SetPropertiesValues([])
    ensures ApplyAll(st, ops) == st
    decreases |ops|
  {
    if ops != [] {
      assert ops[0] in ops;
      assert Apply(st, ops[0]) == st;
      InertCalls(st, ops[1..]);
    }
  }

  /** When the types already match the type entry, the first loop of `bind` only reads. */
  lemma {:induction false} GatePlanOnlyReads(data: seq<Entry>, types: seq<string>)
    requires forall i, x :: 0 <= i < |data| && data[i].key == RdfType ==> (x in types <==> x in TypeUris(data[i].value))
    ensures forall op :: op in GatePlan(data, types) ==> IsRead(op)
    decreases |data|
  {
    if data != [] {
      var last := data[|data| - 1];
      GatePlanOnlyReads(data[..|data| - 1], types);
      if last.key == RdfType {
        DiffEmptyIff(types, TypeUris(last.value));
        DiffEmptyIff(TypeUris(last.value), types);
        assert GateStep(last, types) == [GetTypes];
      }
    }
  }

  /** Entries with nothing to remove and nothing to add cause no removal and an empty `$toAdd`. */
  lemma NothingToReconcile(props: seq<Entry>, oldData: map<string, seq<string>>)
    requires forall e :: e in props ==> Removals(e, oldData) == [] && Additions(e, oldData) == []
    ensures PropertyPlan(props, oldData) == [] && ToAdd(props, oldData) == []
  {
    PropertyPlanEmpty(props, oldData);
    ToAddEntries(props, oldData);
  }

  lemma {:induction false} PropertyPlanEmpty(props: seq<Entry>, oldData: map<string, seq<string>>)
    requires forall e :: e in props ==> Removals(e, oldData) == []
    ensures PropertyPlan(props, oldData) == []
    decreases |props|
  {
    if props != [] {
      var init := props[..|props| - 1];
      assert forall e :: e in init ==> e in props;
      PropertyPlanEmpty(init, oldData);
      assert props[|props| - 1] in props;
    }
  }

  /**
    A store that already holds what the desired state asks for: every kept
    entry's property shows exactly its desired strings, and the types match
    the type entry.
   */
  ghost predicate Settled(data: seq<Entry>, schema: set<string>, st: State) {
    && (forall i, x :: 0 <= i < |data| && data[i].key != RdfType && data[i].key in schema ==>
          (Shown(st, data[i].key, x) <==> x in NewValues(data[i].value)))
    && (forall i, x :: 0 <= i < |data| && data[i].key == RdfType ==>
          (x in st.types <==> x in TypeUris(data[i].value)))
  }

  /** When nothing is removed and nothing added, the part of `bind` after its first loop is one read and an empty addition. */
  lemma QuietValuePlan(props: seq<Entry>, values: map<string, seq<Element>>)
    requires PropertyPlan(props, OldData(KeysOf(props), values)) == []
    requires ToAdd(props, OldData(KeysOf(props), values)) == []
    ensures ValuePlan(props, values) == [GetPropertiesValues(KeysOf(props)), SetPropertiesValues([])]
  {
  }

  /** When the first loop only reads and the rest is one read and an empty addition, `bind` changes nothing. */
  lemma InertPlan(data: seq<Entry>, schema: set<string>, st: State)
    requires ValuePlan(Surviving(data, schema), st.values)
             == [GetPropertiesValues(KeysOf(Surviving(data, schema))), SetPropertiesValues([])]
    requires forall op :: op in GatePlan(data, st.types) ==> IsRead(op)
    ensures forall op :: op in Plan(data, schema, st) ==> IsRead(op) || op == SetPropertiesValues([])
    ensures ApplyAll(st, Plan(data, schema, st)) == st
  {
    var plan := Plan(data, schema, st);
    InertCalls(st, plan);
  }

  /** On a settled store, `bind` only reads and makes an empty `setPropertiesValues` call. */
  lemma SettledBindOnlyReads(data: seq<Entry>, schema: set<string>, st: State)
    requires Settled(data, schema, st)
    ensures forall op :: op in Plan(data, schema, st) ==> IsRead(op) || op == SetPropertiesValues([])
    ensures ApplyAll(st, Plan(data, schema, st)) == st
  {
    var props := Surviving(data, schema);
    var oldData := OldData(KeysOf(props), st.values);
    forall e | e in props
      ensures Removals(e, oldData) == [] && Additions(e, oldData) == []
    {
      var i :| 0 <= i < |data| && data[i] == e;
      forall x
        ensures x in OldOf(oldData, e.key) <==> x in NewValues(e.value)
      {
        OldDataShown(props, st, e, x);
      }
      DiffEmptyIff(OldOf(oldData, e.key), NewValues(e.value));
      DiffEmptyIff(NewValues(e.value), OldOf(oldData, e.key));
    }
    NothingToReconcile(props, oldData);
    QuietValuePlan(props, st.values);
    GatePlanOnlyReads(data, st.types);
    InertPlan(data, schema, st);
  }

  /**
    Binding the same desired state a second time, after a first run that
    raised nothing, removes nothing, adds nothing (the one
    `setPropertiesValues` call gets an empty list) and changes no type: the
    store ends as the first run left it.
   */
  lemma SecondBindChangesNothing(data: seq<Entry>, schema: set<string>, st: State)
    requires DistinctKeys(data)
    ensures
      var fin := ApplyAll(st, Plan(data, schema, st));
      && (forall op :: op in Plan(data, schema, fin) ==> IsRead(op) || op == SetPropertiesValues([]))
      && ApplyAll(fin, Plan(data, schema, fin)) == fin
  {
    BindReconciles(data, schema, st);
    SettledBindOnlyReads(data, schema, ApplyAll(st, Plan(data, schema, st)));
  }
}

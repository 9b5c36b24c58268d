/**
  `tao_models_classes_dataBinding_GenerisInstanceDataBinder`: binds a desired
  state to one target resource by issuing only the removals and additions that
  separate the stored values from the desired ones.

  Every method here is proved against the plan functions of `BindingPlan`:
  `Ran` says that the calls it issued are exactly the plan, or a prefix of it
  that ends with the call that raised, and that the store holds the effect of
  every call before that one.
 */
module GenerisInstanceDataBinder {
  import opened PhpArrays
  import opened GraphStore
  import opened BindingPlan

  /** What leaves the catch block of `bind`. */
  datatype Thrown =
    | GenerisInstanceDataBindingException(instanceUri: string, cause: Op)
    | CallOnNull(methodName: string)  // a PHP `Error`: a method called on an unset variable

  datatype BindResult = Bound(instance: Resource) | Raised(thrown: Thrown)

  /**
    The catch block of `bind` as written: it calls `getUri()` on `$instance`,
    a variable nothing in `bind` assigns, so PHP raises an `Error` before the
    binding exception is built.
   */
  function CatchAsWritten(cause: Op): (t: Thrown) {
    CallOnNull("getUri")
  }

  /** The catch block as intended: a binding exception naming the target resource and the failed call. */
  function Catch(targetUri: string, cause: Op): Thrown {
    GenerisInstanceDataBindingException(targetUri, cause)
  }

  /** As written, a failing store call never surfaces as the binding exception, whatever the call. */
  lemma CatchAsWrittenLosesException(targetUri: string, cause: Op)
    ensures !CatchAsWritten(cause).GenerisInstanceDataBindingException?
    ensures Catch(targetUri, cause) != CatchAsWritten(cause)
  {
  }

  /** The nested loop of `getOldData`: the string forms of the values found for each requested URI. */
  method CollectOldData(propertyUris: seq<string>, found: map<string, seq<Element>>)
    returns (data: map<string, seq<string>>)
    ensures data == OldData(propertyUris, found)
  {
    data := map[];
    for i := 0 to |propertyUris|
      invariant data == OldData(propertyUris[..i], found)
    {
      var uri := propertyUris[i];
      var strings: seq<string> := [];
      if uri in found {
        var elements := found[uri];
        for j := 0 to |elements|
          invariant strings == Canonicals(elements[..j])
        {
          CanonicalsStep(elements, j);
          match elements[j]
          case Literal(text) =>
            strings := strings + [text];
          case ResourceRef(resourceUri) =>
            strings := strings + [resourceUri];
          case OtherElement =>
        }
        assert elements[..|elements|] == elements;
      }
      data := data[uri := strings];
      OldDataStep(propertyUris, i, found);
    }
    assert propertyUris[..|propertyUris|] == propertyUris;
  }

  class Binder {
    const targetInstance: Resource

    constructor (targetInstance: Resource)
      ensures this.targetInstance == targetInstance
    {
      this.targetInstance := targetInstance;
    }

    method GetTargetInstance() returns (r: Resource)
      ensures r == targetInstance
    {
      r := targetInstance;
    }

    /** `getOldData`: one read of the store, then the string forms of the values of every requested URI. */
    method GetOldData(propertyUris: seq<string>) returns (ok: bool, data: map<string, seq<string>>)
      modifies targetInstance
      ensures Ran(targetInstance.faultAt, old(targetInstance.trace), old(targetInstance.Model()),
                  [Op.GetPropertiesValues(propertyUris)], ok, targetInstance.trace, targetInstance.Model())
      ensures ok ==> data == OldData(propertyUris, old(targetInstance.values))
    {
      var found;
      ok, found := targetInstance.GetPropertiesValues(propertyUris);
      if !ok {
        data := map[];
        return;
      }
      data := CollectOldData(propertyUris, found);
      assert OldData(propertyUris, found) == OldData(propertyUris, old(targetInstance.values));
    }

    /** `bindTypes`: remove the old types that are not wanted, then add the wanted types that are missing. */
    method BindTypes(types: RawValue) returns (ok: bool)
      modifies targetInstance
      ensures Ran(targetInstance.faultAt, old(targetInstance.trace), old(targetInstance.Model()),
                  TypeOps(old(targetInstance.types), types), ok, targetInstance.trace, targetInstance.Model())
    {
      var target := targetInstance;
      ghost var t0, m0 := target.trace, target.Model();
      var newTypeUris := TypeUris(types);
      var oldTypeUris;
      ok, oldTypeUris := target.GetTypes();
      ghost var plan := TypeOps(m0.types, types);
      if !ok {
        assert [Op.GetTypes] <= plan;
        RanFailedWithin(target.faultAt, t0, m0, [Op.GetTypes], plan, target.trace, target.Model());
        return;
      }
      var removals := Diff(oldTypeUris, newTypeUris);
      var additions := Diff(newTypeUris, oldTypeUris);
      ghost var read, removing, adding := [Op.GetTypes], RemoveTypeOps(removals), SetTypeOps(additions);
      assert plan == read + removing + adding;
      ghost var t1, m1 := target.trace, target.Model();
      ok := RemoveTypes(removals);
      RanStep(target.faultAt, t0, m0, read, t1, m1, removing, ok, target.trace, target.Model(), plan);
      if !ok {
        return;
      }
      ghost var t2, m2 := target.trace, target.Model();
      ok := AddTypes(additions);
      RanThen(target.faultAt, t0, m0, read + removing, t2, m2, adding, ok, target.trace, target.Model());
    }

    /** The first loop of `bindTypes`: one `removeType` call per old type that is not wanted. */
    method RemoveTypes(removals: seq<string>) returns (ok: bool)
      modifies targetInstance
      ensures Ran(targetInstance.faultAt, old(targetInstance.trace), old(targetInstance.Model()),
                  RemoveTypeOps(removals), ok, targetInstance.trace, targetInstance.Model())
    {
      var target := targetInstance;
      ghost var t0, m0 := target.trace, target.Model();
      ok := true;
      RanNothing(target.faultAt, t0, m0);
      assert RemoveTypeOps(removals[..0]) == [];
      for r := 0 to |removals|
        invariant Ran(target.faultAt, t0, m0, RemoveTypeOps(removals[..r]), true, target.trace, target.Model())
      {
        ghost var t1, m1 := target.trace, target.Model();
        ok := target.RemoveType(removals[r]);
        assert RemoveTypeOps(removals[..r]) + [Op.RemoveType(removals[r])] == RemoveTypeOps(removals[..r + 1]);
        assert RemoveTypeOps(removals[..r + 1]) <= RemoveTypeOps(removals);
        RanStep(target.faultAt, t0, m0, RemoveTypeOps(removals[..r]), t1, m1, [Op.RemoveType(removals[r])],
                ok, target.trace, target.Model(), RemoveTypeOps(removals));
        if !ok {
          return;
        }
      }
      assert removals[..|removals|] == removals;
    }

    /** The second loop of `bindTypes`: one `setType` call per wanted type that is missing. */
    method AddTypes(additions: seq<string>) returns (ok: bool)
      modifies targetInstance
      ensures Ran(targetInstance.faultAt, old(targetInstance.trace), old(targetInstance.Model()),
                  SetTypeOps(additions), ok, targetInstance.trace, targetInstance.Model())
    {
      var target := targetInstance;
      ghost var t0, m0 := target.trace, target.Model();
      ok := true;
      RanNothing(target.faultAt, t0, m0);
      assert SetTypeOps(additions[..0]) == [];
      for a := 0 to |additions|
        invariant Ran(target.faultAt, t0, m0, SetTypeOps(additions[..a]), true, target.trace, target.Model())
      {
        ghost var t1, m1 := target.trace, target.Model();
        ok := target.SetType(additions[a]);
        assert SetTypeOps(additions[..a]) + [Op.SetType(additions[a])] == SetTypeOps(additions[..a + 1]);
        assert SetTypeOps(additions[..a + 1]) <= SetTypeOps(additions);
        RanStep(target.faultAt, t0, m0, SetTypeOps(additions[..a]), t1, m1, [Op.SetType(additions[a])],
                ok, target.trace, target.Model(), SetTypeOps(additions));
        if !ok {
          return;
        }
      }
      assert additions[..|additions|] == additions;
    }

    /**
      One turn of the first loop of `bind`: the type key goes to `bindTypes`
      at once; any other key is looked up in the schema.
     */
    method GateEntry(e: Entry) returns (ok: bool, kept: bool)
      modifies targetInstance
      ensures Ran(targetInstance.faultAt, old(targetInstance.trace), old(targetInstance.Model()),
                  GateStep(e, old(targetInstance.types)), ok, targetInstance.trace, targetInstance.Model())
      ensures ok ==> targetInstance.values == old(targetInstance.values)
      ensures ok && e.key != RdfType ==> targetInstance.types == old(targetInstance.types)
      ensures ok ==> (kept <==> e.key != RdfType && e.key in targetInstance.schema)
    {
      var target := targetInstance;
      ghost var m0 := target.Model();
      kept := false;
      if e.key == RdfType {
        ok := BindTypes(e.value);
        if ok {
          TypeOpsKeepValues(m0, m0.types, e.value);
        }
      } else {
        ok, kept := target.PropertyExists(e.key);
        if ok {
          ApplyAllKeepsValues(m0, [Op.PropertyExists(e.key)]);
          ApplyAllKeepsTypes(m0, [Op.PropertyExists(e.key)]);
        }
      }
    }

    /** The first loop of `bind`: bind the types when the type key comes, keep the entries whose property exists. */
    method FilterEntries(data: seq<Entry>) returns (ok: bool, properties: seq<Entry>)
      requires DistinctKeys(data)
      modifies targetInstance
      ensures Ran(targetInstance.faultAt, old(targetInstance.trace), old(targetInstance.Model()),
                  GatePlan(data, old(targetInstance.types)), ok, targetInstance.trace, targetInstance.Model())
      ensures ok ==> properties == Surviving(data, targetInstance.schema)
      ensures ok ==> targetInstance.values == old(targetInstance.values)
    {
      var target := targetInstance;
      ghost var t0, m0 := target.trace, target.Model();
      ok := true;
      properties := [];
      RanNothing(target.faultAt, t0, m0);
      for i := 0 to |data|
        invariant properties == Surviving(data[..i], target.schema)
        invariant Ran(target.faultAt, t0, m0, GatePlan(data[..i], m0.types), true, target.trace, target.Model())
        invariant target.values == m0.values
        invariant (forall q :: 0 <= q < i ==> data[q].key != RdfType) ==> target.types == m0.types
      {
        ghost var t1, m1 := target.trace, target.Model();
        var e := data[i];
        assert e.key == RdfType ==> forall q :: 0 <= q < i ==> data[q].key != RdfType;
        assert GateStep(e, m1.types) == GateStep(e, m0.types);
        var kept;
        ok, kept := GateEntry(e);
        GatePlanStep(data, i, m0.types);
        GatePlanPrefix(data, i + 1, m0.types);
        RanStep(target.faultAt, t0, m0, GatePlan(data[..i], m0.types), t1, m1, GateStep(e, m0.types),
                ok, target.trace, target.Model(), GatePlan(data, m0.types));
        if !ok {
          return;
        }
        if kept {
          properties := properties + [e];
        }
        SurvivingStep(data, i, target.schema);
      }
      assert data[..|data|] == data;
    }

    /** The inner loop of `bind`: one `removePropertyValue` call per value to remove. */
    method RemoveValues(propertyUri: string, removals: seq<string>) returns (ok: bool)
      modifies targetInstance
      ensures Ran(targetInstance.faultAt, old(targetInstance.trace), old(targetInstance.Model()),
                  RemovalOps(propertyUri, removals), ok, targetInstance.trace, targetInstance.Model())
    {
      var target := targetInstance;
      ghost var t0, m0 := target.trace, target.Model();
      ok := true;
      RanNothing(target.faultAt, t0, m0);
      assert RemovalOps(propertyUri, removals[..0]) == [];
      for r := 0 to |removals|
        invariant Ran(target.faultAt, t0, m0, RemovalOps(propertyUri, removals[..r]), true,
                      target.trace, target.Model())
      {
        ghost var t1, m1 := target.trace, target.Model();
        ok := target.RemovePropertyValue(propertyUri, removals[r]);
        RanThen(target.faultAt, t0, m0, RemovalOps(propertyUri, removals[..r]), t1, m1,
                [Op.RemovePropertyValue(propertyUri, removals[r])], ok, target.trace, target.Model());
        assert RemovalOps(propertyUri, removals[..r]) + [Op.RemovePropertyValue(propertyUri, removals[r])]
            == RemovalOps(propertyUri, removals[..r + 1]);
        if !ok {
          assert RemovalOps(propertyUri, removals[..r + 1]) <= RemovalOps(propertyUri, removals);
          RanFailedWithin(target.faultAt, t0, m0, RemovalOps(propertyUri, removals[..r + 1]),
                          RemovalOps(propertyUri, removals), target.trace, target.Model());
          return;
        }
      }
      assert removals[..|removals|] == removals;
    }

    /**
      The second loop of `bind`: for each kept entry, remove old minus new,
      and collect new minus old into `$toAdd` when it is not empty.
     */
    method ReconcileProperties(properties: seq<Entry>, oldData: map<string, seq<string>>)
      returns (ok: bool, toAdd: seq<Addition>)
      requires forall e :: e in properties ==> e.key in oldData
      modifies targetInstance
      ensures Ran(targetInstance.faultAt, old(targetInstance.trace), old(targetInstance.Model()),
                  PropertyPlan(properties, oldData), ok, targetInstance.trace, targetInstance.Model())
      ensures ok ==> toAdd == ToAdd(properties, oldData)
    {
      var target := targetInstance;
      ghost var t0, m0 := target.trace, target.Model();
      ok := true;
      toAdd := [];
      RanNothing(target.faultAt, t0, m0);
      for j := 0 to |properties|
        invariant Ran(target.faultAt, t0, m0, PropertyPlan(properties[..j], oldData), true,
                      target.trace, target.Model())
        invariant toAdd == ToAdd(properties[..j], oldData)
      {
        var e := properties[j];
        assert e in properties;
        var newValues := NewValues(e.value);
        var oldValues := oldData[e.key];
        var removals := Diff(oldValues, newValues);
        ghost var t1, m1 := target.trace, target.Model();
        ok := RemoveValues(e.key, removals);
        RanThen(target.faultAt, t0, m0, PropertyPlan(properties[..j], oldData), t1, m1,
                RemovalOps(e.key, removals), ok, target.trace, target.Model());
        PropertyPlanStep(properties, j, oldData);
        if !ok {
          PropertyPlanPrefix(properties, j + 1, oldData);
          RanFailedWithin(target.faultAt, t0, m0, PropertyPlan(properties[..j + 1], oldData),
                          PropertyPlan(properties, oldData), target.trace, target.Model());
          return;
        }
        var addValues := Diff(newValues, oldValues);
        if addValues != [] {
          toAdd := toAdd + [Addition(e.key, addValues)];
        }
      }
      assert properties[..|properties|] == properties;
    }

    /**
      The part of `bind` after its first loop: read the old values of the kept
      properties, reconcile them, and add what is missing in one call.
     */
    method BindValues(properties: seq<Entry>) returns (ok: bool)
      modifies targetInstance
      ensures Ran(targetInstance.faultAt, old(targetInstance.trace), old(targetInstance.Model()),
                  ValuePlan(properties, old(targetInstance.values)), ok, targetInstance.trace, targetInstance.Model())
    {
      var target := targetInstance;
      ghost var t0, m0 := target.trace, target.Model();
      ghost var plan := ValuePlan(properties, m0.values);
      var propertyUris := KeysOf(properties);
      var oldData;
      ok, oldData := GetOldData(propertyUris);
      ghost var read := [Op.GetPropertiesValues(propertyUris)];
      if !ok {
        assert read <= plan;
        RanFailedWithin(target.faultAt, t0, m0, read, plan, target.trace, target.Model());
        return;
      }
      ghost var reconcile := PropertyPlan(properties, oldData);
      assert forall e :: e in properties ==> e.key in oldData by {
        forall e | e in properties
          ensures e.key in oldData
        {
          var j :| 0 <= j < |properties| && properties[j] == e;
          assert propertyUris[j] == e.key;
        }
      }

      ghost var t1, m1 := target.trace, target.Model();
      var toAdd;
      ok, toAdd := ReconcileProperties(properties, oldData);
      RanThen(target.faultAt, t0, m0, read, t1, m1, reconcile, ok, target.trace, target.Model());
      if !ok {
        assert read + reconcile <= plan;
        RanFailedWithin(target.faultAt, t0, m0, read + reconcile, plan, target.trace, target.Model());
        return;
      }

      ghost var t2, m2 := target.trace, target.Model();
      ok := target.SetPropertiesValues(toAdd);
      RanThen(target.faultAt, t0, m0, read + reconcile, t2, m2,
              [Op.SetPropertiesValues(toAdd)], ok, target.trace, target.Model());
    }

    /**
      `bind`: route the type key to `bindTypes` when the loop meets it, keep the
      entries whose property exists, read their old values in one call, remove
      old minus new one value at a time, and add new minus old for all
      properties in one `setPropertiesValues` call, made even when there is
      nothing to add. A failing store call ends the run; what it already
      changed stays changed.
     */
    method Bind(data: seq<Entry>) returns (result: BindResult)
      requires DistinctKeys(data)
      modifies targetInstance
      ensures Ran(targetInstance.faultAt, old(targetInstance.trace), old(targetInstance.Model()),
                  Plan(data, targetInstance.schema, old(targetInstance.Model())), result.Bound?,
                  targetInstance.trace, targetInstance.Model())
      ensures result.Bound? ==> result.instance == targetInstance
      ensures result.Raised? ==>
                |targetInstance.trace| > 0
                && result.thrown == Catch(targetInstance.uri, targetInstance.trace[|targetInstance.trace| - 1])
    {
      var returnValue := GetTargetInstance();
      var target := targetInstance;
      ghost var t0, m0 := target.trace, target.Model();
      ghost var plan := Plan(data, target.schema, m0);
      ghost var gate := GatePlan(data, m0.types);

      var ok, properties := FilterEntries(data);
      if !ok {
        assert gate <= plan;
        RanFailedWithin(target.faultAt, t0, m0, gate, plan, target.trace, target.Model());
        result := Raised(Catch(target.uri, target.trace[|target.trace| - 1]));
        return;
      }
      ghost var t1, m1 := target.trace, target.Model();
      ok := BindValues(properties);
      RanThen(target.faultAt, t0, m0, gate, t1, m1, ValuePlan(properties, m0.values), ok,
              target.trace, target.Model());
      if !ok {
        result := Raised(Catch(target.uri, target.trace[|target.trace| - 1]));
        return;
      }
      result := Bound(returnValue);
    }
  }
}

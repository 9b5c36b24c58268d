/**
  The semantic store as the binder sees it: one target resource with its
  property values and its types, the schema that says which properties exist,
  and a trace of every call the binder makes on them.

  Each store call is an `Op`. Reads leave the state alone; the four mutations
  change it as `Apply` says. A store call can raise `common_Exception`: the
  model injects that fault by position (`Resource.faultAt`), so a run of the
  binder either issues its whole plan of calls or stops at the call that
  raised, with every earlier call still in effect. `Ran` states this.
  Faults of any other exception class, which would escape `bind`'s catch,
  are not modelled.
 */
module GraphStore {

  /** A value of a property as the store hands it out. */
  datatype Element =
    | Literal(text: string)
    | ResourceRef(uri: string)
    | OtherElement  // anything that is neither a literal nor a resource

  /** `e` is a value whose string form is `v`. */
  predicate Denotes(e: Element, v: string) {
    e == Literal(v) || e == ResourceRef(v)
  }

  /**
    The stored values of the target resource, per property URI, and its type
    URIs. `values` holds only the properties other than `rdf:type`; the values
    of `rdf:type` are `types`, which only the type calls read and change.
   */
  datatype State = State(values: map<string, seq<Element>>, types: seq<string>)

  /** The values stored for property `p`; none when the map has no entry. */
  function ValuesOf(st: State, p: string): seq<Element> {
    if p in st.values then st.values[p] else []
  }

  /** One entry of the argument of `setPropertiesValues`: a property and the values to add. */
  datatype Addition = Addition(property: string, values: seq<string>)

  /** The store calls the binder issues, with their arguments. */
  datatype Op =
    | PropertyExists(property: string)
    | GetTypes
    | GetPropertiesValues(properties: seq<string>)
    | RemovePropertyValue(property: string, value: string)
    | SetPropertiesValues(additions: seq<Addition>)
    | RemoveType(typeUri: string)
    | SetType(typeUri: string)

  predicate IsRead(op: Op) {
    op.PropertyExists? || op.GetTypes? || op.GetPropertiesValues?
  }

  predicate IsTypeMutation(op: Op) {
    op.RemoveType? || op.SetType?
  }

  predicate IsValueMutation(op: Op) {
    op.RemovePropertyValue? || op.SetPropertiesValues?
  }

  /** `es` without the values whose string form is `v`; other elements keep their order. */
  function WithoutValue(es: seq<Element>, v: string): (r: seq<Element>)
    ensures forall e :: e in r <==> e in es && !Denotes(e, v)
  {
    if es == [] then []
    else (if Denotes(es[0], v) then [] else [es[0]]) + WithoutValue(es[1..], v)
  }

  /** `ts` without type `t`. */
  function WithoutType(ts: seq<string>, t: string): (r: seq<string>)
    ensures forall x :: x in r <==> x in ts && x != t
  {
    if ts == [] then []
    else (if ts[0] == t then [] else [ts[0]]) + WithoutType(ts[1..], t)
  }

  /** Added strings are stored as literals. */
  function Literals(vs: seq<string>): (r: seq<Element>)
    ensures |r| == |vs|
    ensures forall e :: e in r <==> exists v :: v in vs && e == Literal(v)
  {
    if vs == [] then [] else [Literal(vs[0])] + Literals(vs[1..])
  }

  /** `setPropertiesValues`: every addition appends its values to its property. */
  function AddAll(values: map<string, seq<Element>>, adds: seq<Addition>): map<string, seq<Element>>
    decreases |adds|
  {
    if adds == [] then values
    else
      var a := adds[0];
      var before := if a.property in values then values[a.property] else [];
      AddAll(values[a.property := before + Literals(a.values)], adds[1..])
  }

  /** The effect of one store call that did not raise. */
  function Apply(st: State, op: Op): State {
    match op
    case RemovePropertyValue(p, v) =>
      if p in st.values then st.(values := st.values[p := WithoutValue(st.values[p], v)]) else st
    case SetPropertiesValues(adds) => st.(values := AddAll(st.values, adds))
    case RemoveType(t) => st.(types := WithoutType(st.types, t))
    case SetType(t) => st.(types := st.types + [t])
    case _ => st
  }

  /** The effect of a sequence of store calls, none of which raised. */
  function ApplyAll(st: State, ops: seq<Op>): State
    decreases |ops|
  {
    if ops == [] then st else ApplyAll(Apply(st, ops[0]), ops[1..])
  }

  lemma {:induction false} ApplyAllConcat(st: State, a: seq<Op>, b: seq<Op>)
    ensures ApplyAll(st, a + b) == ApplyAll(ApplyAll(st, a), b)
    decreases |a|
  {
    if a == [] {
      assert a + b == b;
    } else {
      assert (a + b)[0] == a[0] && (a + b)[1..] == a[1..] + b;
      ApplyAllConcat(Apply(st, a[0]), a[1..], b);
    }
  }

  /** Calls that do not write values leave every stored value as it was. */
  lemma {:induction false} ApplyAllKeepsValues(st: State, ops: seq<Op>)
    requires forall op :: op in ops ==> !IsValueMutation(op)
    ensures ApplyAll(st, ops).values == st.values
    decreases |ops|
  {
    if ops != [] {
      assert ops[0] in ops;
      ApplyAllKeepsValues(Apply(st, ops[0]), ops[1..]);
    }
  }

  /** Calls that do not write types leave the type list as it was. */
  lemma {:induction false} ApplyAllKeepsTypes(st: State, ops: seq<Op>)
    requires forall op :: op in ops ==> !IsTypeMutation(op)
    ensures ApplyAll(st, ops).types == st.types
    decreases |ops|
  {
    if ops != [] {
      assert ops[0] in ops;
      ApplyAllKeepsTypes(Apply(st, ops[0]), ops[1..]);
    }
  }

  /**
    A run that started with trace `t0` and state `m0` and set out to issue the
    calls of `plan` ended with trace `t` and state `m`. The call issued at trace
    position `faultAt` raises. If no call of the plan sits there, the whole plan
    was issued and took effect (`ok`). Otherwise the calls up to and including
    the raising one were issued, and every call before it took effect: nothing
    is rolled back.
   */
  ghost predicate Ran(faultAt: int, t0: seq<Op>, m0: State, plan: seq<Op>, ok: bool, t: seq<Op>, m: State) {
    var k := faultAt - |t0|;
    if ok then
      !(0 <= k < |plan|) && t == t0 + plan && m == ApplyAll(m0, plan)
    else
      0 <= k < |plan| && t == t0 + plan[..k + 1] && m == ApplyAll(m0, plan[..k])
  }

  lemma RanNothing(faultAt: int, t: seq<Op>, m: State)
    ensures Ran(faultAt, t, m, [], true, t, m)
  {
    assert t + [] == t;
  }

  /** Two runs in a row, the first complete, make one run of the joined plan. */
  lemma RanThen(faultAt: int, t0: seq<Op>, m0: State, a: seq<Op>, t1: seq<Op>, m1: State,
                b: seq<Op>, ok: bool, t2: seq<Op>, m2: State)
    requires Ran(faultAt, t0, m0, a, true, t1, m1)
    requires Ran(faultAt, t1, m1, b, ok, t2, m2)
    ensures Ran(faultAt, t0, m0, a + b, ok, t2, m2)
  {
    var k := faultAt - |t0|;
    ApplyAllConcat(m0, a, b);
    if ok {
      assert t2 == t0 + (a + b);
    } else {
      var k1 := faultAt - |t1|;
      assert k == |a| + k1;
      assert (a + b)[..k + 1] == a + b[..k1 + 1];
      assert (a + b)[..k] == a + b[..k1];
      ApplyAllConcat(m0, a, b[..k1]);
    }
  }

  /** A run that raised part way through a prefix of a longer plan raised in that plan too. */
  lemma RanFailedWithin(faultAt: int, t0: seq<Op>, m0: State, a: seq<Op>, plan: seq<Op>, t: seq<Op>, m: State)
    requires Ran(faultAt, t0, m0, a, false, t, m)
    requires a <= plan
    ensures Ran(faultAt, t0, m0, plan, false, t, m)
  {
    var k := faultAt - |t0|;
    assert plan[..k + 1] == a[..k + 1];
    assert plan[..k] == a[..k];
  }

  /**
    One more call of a plan: a complete run of `done` followed by a run of
    `step` is a complete run of `done + step`, or a run of the whole plan that
    raised.
   */
  lemma RanStep(faultAt: int, t0: seq<Op>, m0: State, done: seq<Op>, t1: seq<Op>, m1: State,
                step: seq<Op>, ok: bool, t2: seq<Op>, m2: State, plan: seq<Op>)
    requires Ran(faultAt, t0, m0, done, true, t1, m1)
    requires Ran(faultAt, t1, m1, step, ok, t2, m2)
    requires done + step <= plan
    ensures ok ==> Ran(faultAt, t0, m0, done + step, true, t2, m2)
    ensures !ok ==> Ran(faultAt, t0, m0, plan, false, t2, m2)
  {
    RanThen(faultAt, t0, m0, done, t1, m1, step, ok, t2, m2);
    if !ok {
      RanFailedWithin(faultAt, t0, m0, done + step, plan, t2, m2);
    }
  }

  lemma PrefixTrans(a: seq<Op>, b: seq<Op>, c: seq<Op>)
    requires a <= b && b <= c
    ensures a <= c
  {
    assert c[..|b|][..|a|] == c[..|a|];
  }

  /** The target resource, as reached through the store. */
  class Resource {
    const uri: string
    /** The URIs of the properties that exist. */
    const schema: set<string>
    /** The trace position of the store call that raises `common_Exception`. */
    const faultAt: int
    var values: map<string, seq<Element>>
    var types: seq<string>
    /** Every store call issued so far, in order. */
    var trace: seq<Op>

    function Model(): State
      reads this
    {
      State(values, types)
    }

    constructor (uri: string, schema: set<string>, values: map<string, seq<Element>>,
                 types: seq<string>, faultAt: int)
      ensures this.uri == uri && this.schema == schema && this.faultAt == faultAt
      ensures Model() == State(values, types) && trace == []
    {
      this.uri := uri;
      this.schema := schema;
      this.faultAt := faultAt;
      this.values := values;
      this.types := types;
      this.trace := [];
    }

    /** Issue one store call: it is recorded, it raises if it is the faulting call, otherwise it takes effect. */
    method Issue(op: Op) returns (ok: bool)
      modifies this
      ensures Ran(faultAt, old(trace), old(Model()), [op], ok, trace, Model())
    {
      ok := |trace| != faultAt;
      trace := trace + [op];
      assert [op][..1] == [op] && [op][..0] == [] && [op][1..] == [];
      if ok {
        var st := Apply(Model(), op);
        values, types := st.values, st.types;
      }
    }

    /** `core_kernel_classes_Property::exists`. */
    method PropertyExists(p: string) returns (ok: bool, found: bool)
      modifies this
      ensures Ran(faultAt, old(trace), old(Model()), [Op.PropertyExists(p)], ok, trace, Model())
      ensures ok ==> found == (p in schema)
    {
      ok := Issue(Op.PropertyExists(p));
      found := p in schema;
    }

    /** `getTypes`, reduced to the URIs of the classes. */
    method GetTypes() returns (ok: bool, typeUris: seq<string>)
      modifies this
      ensures Ran(faultAt, old(trace), old(Model()), [Op.GetTypes], ok, trace, Model())
      ensures ok ==> typeUris == old(types)
    {
      typeUris := types;
      ok := Issue(Op.GetTypes);
    }

    /** `getPropertiesValues`: the stored values of each requested property that has an entry. */
    method GetPropertiesValues(ps: seq<string>) returns (ok: bool, found: map<string, seq<Element>>)
      modifies this
      ensures Ran(faultAt, old(trace), old(Model()), [Op.GetPropertiesValues(ps)], ok, trace, Model())
      ensures ok ==> found == map p | p in ps && p in old(values) :: old(values)[p]
    {
      found := map p | p in ps && p in values :: values[p];
      ok := Issue(Op.GetPropertiesValues(ps));
    }

    method RemovePropertyValue(p: string, v: string) returns (ok: bool)
      modifies this
      ensures Ran(faultAt, old(trace), old(Model()), [Op.RemovePropertyValue(p, v)], ok, trace, Model())
    {
      ok := Issue(Op.RemovePropertyValue(p, v));
    }

    method SetPropertiesValues(adds: seq<Addition>) returns (ok: bool)
      modifies this
      ensures Ran(faultAt, old(trace), old(Model()), [Op.SetPropertiesValues(adds)], ok, trace, Model())
    {
      ok := Issue(Op.SetPropertiesValues(adds));
    }

    method RemoveType(t: string) returns (ok: bool)
      modifies this
      ensures Ran(faultAt, old(trace), old(Model()), [Op.RemoveType(t)], ok, trace, Model())
    {
      ok := Issue(Op.RemoveType(t));
    }

    method SetType(t: string) returns (ok: bool)
      modifies this
      ensures Ran(faultAt, old(trace), old(Model()), [Op.SetType(t)], ok, trace, Model())
    {
      ok := Issue(Op.SetType(t));
    }
  }
}

/** Reading a field's value on the test instance: a static field is read directly, an instance
    field on the first object of the enclosing-instance chain whose class declares it
    (getFieldValue, matchElementDeclaringClass). */
module Instances {
  import opened Errors
  import opened Fields

  /** A runtime object: its class and, for an instance of an inner class, the enclosing
      instance it holds. */
  datatype Instance = Instance(runtimeClass: ClassId, outer: Option<Instance>)

  /** Class.isAssignableFrom: whether an object of the second class is an instance of the
      first. */
  type Assignability = (ClassId, ClassId) -> bool

  /** The test instance and its enclosing instances, innermost first. */
  function Chain(inst: Instance): (r: seq<Instance>)
    ensures |r| >= 1 && r[0] == inst
    decreases inst
  {
    match inst.outer
    case None => [inst]
    case Some(o) => [inst] + Chain(o)
  }

  /** The position of the first object of `chain` whose class is assignable to `decl`. */
  function FirstAssignable(decl: ClassId, chain: seq<Instance>, assignable: Assignability): (r: Option<nat>)
    ensures r.Some? ==> r.value < |chain| && assignable(decl, chain[r.value].runtimeClass)
    ensures r.Some? ==> forall j :: 0 <= j < r.value ==> !assignable(decl, chain[j].runtimeClass)
    ensures r.None? ==> forall j :: 0 <= j < |chain| ==> !assignable(decl, chain[j].runtimeClass)
  {
    if chain == [] then None
    else if assignable(decl, chain[0].runtimeClass) then Some(0)
    else
      match FirstAssignable(decl, chain[1..], assignable)
      case None => None
      case Some(k) => Some(k + 1)
  }

  /** matchElementDeclaringClass: walks outwards from `inst` while the current object is not
      an instance of `decl`, failing when there is no enclosing instance left. */
  method MatchElementDeclaringClass(decl: ClassId, inst: Instance, assignable: Assignability)
    returns (r: Result<Instance>)
    ensures r.Ok? <==> FirstAssignable(decl, Chain(inst), assignable).Some?
    ensures r.Ok? ==> r.value == Chain(inst)[FirstAssignable(decl, Chain(inst), assignable).value]
    ensures r.Err? ==> r.error == NoOuterInstance
  {
    var cur := inst;
    ghost var k := 0;
    while !assignable(decl, cur.runtimeClass)
      invariant 0 <= k < |Chain(inst)| && Chain(inst)[k..] == Chain(cur)
      invariant forall j :: 0 <= j < k ==> !assignable(decl, Chain(inst)[j].runtimeClass)
      decreases cur
    {
      assert Chain(inst)[k] == cur;
      match cur.outer
      case None =>
        assert |Chain(inst)| == k + 1;
        return Err(NoOuterInstance);
      case Some(o) =>
        assert Chain(inst)[k + 1..] == Chain(cur)[1..] == Chain(o);
        cur := o;
        k := k + 1;
    }
    assert Chain(inst)[k] == cur;
    return Ok(cur);
  }

  /** The object a field is read on: none for a static field. */
  datatype Receiver = Static | On(instance: Instance)

  /** A value read from a field, kept symbolic: the field and the object it was read on. */
  datatype FieldValue = FieldValue(field: Field, receiver: Receiver)

  /** The value getFieldValue reads for `f` on the test instance `inst`. */
  function ReadField(f: Field, inst: Instance, assignable: Assignability): (r: Result<FieldValue>)
    ensures r.Ok? ==> r.value.field == f
    ensures f.isStatic ==> r == Ok(FieldValue(f, Static))
    ensures !f.isStatic ==>
              (r.Ok? <==> exists k :: 0 <= k < |Chain(inst)| && assignable(f.declaringClass, Chain(inst)[k].runtimeClass))
    ensures !f.isStatic && r.Ok? ==>
              exists k :: 0 <= k < |Chain(inst)| && r.value.receiver == On(Chain(inst)[k])
                          && assignable(f.declaringClass, Chain(inst)[k].runtimeClass)
                          && forall j :: 0 <= j < k ==> !assignable(f.declaringClass, Chain(inst)[j].runtimeClass)
    ensures r.Err? ==> r.error == NoOuterInstance
  {
    if f.isStatic then Ok(FieldValue(f, Static))
    else
      var chain := Chain(inst);
      match FirstAssignable(f.declaringClass, chain, assignable)
      case None => Err(NoOuterInstance)
      case Some(k) =>
        assert assignable(f.declaringClass, Chain(inst)[k].runtimeClass);
        Ok(FieldValue(f, On(chain[k])))
  }

  /** getFieldValue: a static field without a receiver, an instance field on the object the
      walk finds. */
  method GetFieldValue(f: Field, inst: Instance, assignable: Assignability) returns (r: Result<FieldValue>)
    ensures r == ReadField(f, inst, assignable)
  {
    if f.isStatic {
      return Ok(FieldValue(f, Static));
    }
    var receiver :- MatchElementDeclaringClass(f.declaringClass, inst, assignable);
    return Ok(FieldValue(f, On(receiver)));
  }

  /** Exact class match, for a class hierarchy without subclassing. */
  function SameClass(): Assignability {
    (decl: ClassId, runtime: ClassId) => decl == runtime
  }

  /** A field of the outer class of a nested test class is read on the enclosing instance,
      one step out from the test instance. */
  lemma NestedFieldIsReadOnOuterInstance(outerClass: ClassId, innerClass: ClassId, f: Field)
    requires outerClass != innerClass
    requires f.declaringClass == outerClass && !f.isStatic
    ensures var outer := Instance(outerClass, None);
            ReadField(f, Instance(innerClass, Some(outer)), SameClass()) == Ok(FieldValue(f, On(outer)))
  {
    var outer := Instance(outerClass, None);
    var inner := Instance(innerClass, Some(outer));
    assert Chain(inner) == [inner, outer];
    assert Chain(inner)[1..] == [outer];
  }

  /** A field whose class is not on the chain cannot be read. */
  lemma UnrelatedFieldHasNoReceiver(c: ClassId, f: Field)
    requires f.declaringClass != c && !f.isStatic
    ensures ReadField(f, Instance(c, None), SameClass()) == Err(NoOuterInstance)
  {
    assert Chain(Instance(c, None)) == [Instance(c, None)];
  }
}

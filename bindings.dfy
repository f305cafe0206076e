/** Building one binding per resource (the holder-building loop of postProcessTestInstance),
    and the introspection of a test class as a whole. */
module Bindings {
  import opened Errors
  import opened Fields
  import opened Seqs
  import opened Order
  import opened Sorting
  import opened Collect

  /** What a DbSetupHolder is built from: the resource field, the operation fields that
      target the resource, and its binder configuration, if any. `name` is the resource name
      the binding was built for. */
  datatype Binding = Binding(
    name: string,
    dataSourceField: Field,
    operationFields: seq<Field>,
    binderConfigurationField: Option<Field>)

  function TargetsResource(name: string): Field -> bool {
    (f: Field) => name in f.targets
  }

  /** The operation fields of `ops` that target the resource `name`, in their order in `ops`. */
  function Targeting(ops: seq<Field>, name: string): seq<Field> {
    Filter(ops, TargetsResource(name))
  }

  /** Those of `visited` among the binder configurations that target the resource `name`. */
  function TargetsAmong(binders: map<Field, seq<string>>, name: string, visited: set<Field>): set<Field> {
    set f | f in visited && f in binders && name in binders[f]
  }

  /** The binder configurations that target the resource `name`. */
  function BinderTargets(binders: map<Field, seq<string>>, name: string): set<Field> {
    TargetsAmong(binders, name, binders.Keys)
  }

  /** `chosen` is the binder configuration of the resource `name` among `candidates`: none if
      none targets it, the only one if one does. */
  predicate ChosenAmong(chosen: Option<Field>, candidates: set<Field>) {
    match chosen
    case None => candidates == {}
    case Some(f) => candidates == {f}
  }

  predicate BindingFor(b: Binding, dataSources: map<string, Field>, ops: seq<Field>,
                       binders: map<Field, seq<string>>) {
    && b.name in dataSources
    && b.dataSourceField == dataSources[b.name]
    && b.operationFields == Targeting(ops, b.name)
    && ChosenAmong(b.binderConfigurationField, BinderTargets(binders, b.name))
  }

  function Names(bs: seq<Binding>): set<string> {
    set i | 0 <= i < |bs| :: bs[i].name
  }

  lemma NamesSnoc(bs: seq<Binding>, b: Binding)
    ensures Names(bs + [b]) == Names(bs) + {b.name}
  {
    var bs' := bs + [b];
    assert bs'[|bs|] == b;
    forall n | n in Names(bs') ensures n in Names(bs) + {b.name} {
      var i :| 0 <= i < |bs'| && bs'[i].name == n;
      if i < |bs| {
        assert bs[i] == bs'[i];
      }
    }
    forall n | n in Names(bs) ensures n in Names(bs') {
      var i :| 0 <= i < |bs| && bs[i].name == n;
      assert bs'[i] == bs[i];
    }
  }

  predicate DistinctBindingNames(bs: seq<Binding>) {
    forall i, j :: 0 <= i < j < |bs| ==> bs[i].name != bs[j].name
  }

  /** Exactly one binding per resource, each built from that resource's declarations. */
  predicate BindingsFor(bs: seq<Binding>, dataSources: map<string, Field>, ops: seq<Field>,
                        binders: map<Field, seq<string>>) {
    && Names(bs) == dataSources.Keys
    && DistinctBindingNames(bs)
    && forall i :: 0 <= i < |bs| ==> BindingFor(bs[i], dataSources, ops, binders)
  }

  /** The inner loop over the ordered operation map: the fields that target `name`. */
  method CollectOperations(ops: seq<Field>, name: string) returns (r: seq<Field>)
    ensures r == Targeting(ops, name)
  {
    r := [];
    for i := 0 to |ops|
      invariant r == Targeting(ops[..i], name)
    {
      assert ops[..i + 1][..i] == ops[..i];
      if name in ops[i].targets {
        r := r + [ops[i]];
      }
    }
    assert ops[..|ops|] == ops;
  }

  lemma TwoMembers(s: set<Field>, a: Field, b: Field)
    requires a in s && b in s && a != b
    ensures |s| >= 2
  {
    var s' := s - {a};
    assert |s'| == |s| - 1;
    assert b in s';
    assert |s'| >= 1;
  }

  /** The inner loop over the binder map: the binder configuration of `name`, an error at
      the second one found. */
  method ChooseBinder(binders: map<Field, seq<string>>, name: string) returns (r: Result<Option<Field>>)
    ensures r.Err? <==> |BinderTargets(binders, name)| >= 2
    ensures r.Err? ==> r.error == DuplicateBinderConfiguration(name)
    ensures r.Ok? ==> ChosenAmong(r.value, BinderTargets(binders, name))
  {
    var chosen: Option<Field> := None;
    var rest := binders.Keys;
    while rest != {}
      invariant rest <= binders.Keys
      invariant ChosenAmong(chosen, TargetsAmong(binders, name, binders.Keys - rest))
      decreases rest
    {
      var f :| f in rest;
      var visited := binders.Keys - rest;
      assert binders.Keys - (rest - {f}) == visited + {f};
      if name in binders[f] {
        if chosen.Some? {
          TwoMembers(BinderTargets(binders, name), chosen.value, f);
          return Err(DuplicateBinderConfiguration(name));
        }
        assert TargetsAmong(binders, name, visited + {f}) == {f};
        chosen := Some(f);
      } else {
        assert TargetsAmong(binders, name, visited + {f}) == TargetsAmong(binders, name, visited);
      }
      rest := rest - {f};
    }
    assert binders.Keys - rest == binders.Keys;
    return Ok(chosen);
  }

  /** The outer loop: one binding per resource, visited in the map's iteration order, which
      the model leaves open. */
  method BuildBindings(dataSources: map<string, Field>, ops: seq<Field>, binders: map<Field, seq<string>>)
    returns (r: Result<seq<Binding>>)
    ensures r.Ok? <==> forall n :: n in dataSources ==> |BinderTargets(binders, n)| < 2
    ensures r.Err? ==> exists n :: n in dataSources && |BinderTargets(binders, n)| >= 2
                                   && r.error == DuplicateBinderConfiguration(n)
    ensures r.Ok? ==> BindingsFor(r.value, dataSources, ops, binders)
  {
    var holders: seq<Binding> := [];
    var rest := dataSources.Keys;
    while rest != {}
      invariant rest <= dataSources.Keys
      invariant Names(holders) == dataSources.Keys - rest
      invariant DistinctBindingNames(holders)
      invariant forall i :: 0 <= i < |holders| ==> BindingFor(holders[i], dataSources, ops, binders)
      invariant forall n :: n in dataSources && n !in rest ==> |BinderTargets(binders, n)| < 2
      decreases rest
    {
      var name :| name in rest;
      var operations := CollectOperations(ops, name);
      var binder :- ChooseBinder(binders, name);
      var holder := Binding(name, dataSources[name], operations, binder);
      NamesSnoc(holders, holder);
      holders := holders + [holder];
      rest := rest - {name};
    }
    return Ok(holders);
  }

  /** A binding's operations are exactly the operation fields that target its resource. */
  lemma TargetingMembers(ops: seq<Field>, name: string, f: Field)
    ensures f in Targeting(ops, name) <==> f in ops && name in f.targets
  {
    FilterMembers(ops, TargetsResource(name), f);
  }

  /** A binding's operations are in ascending order. */
  lemma HolderOperationsSorted(found: seq<Field>, name: string)
    ensures SortedBy(Targeting(OrderedOperationMap(found), name), Key)
  {
    OrderedMapSorted(found);
    FilterSorted(OrderedOperationMap(found), TargetsResource(name), Key);
  }

  /** Among a binding's operations of one order, the discovery order is kept: they are the
      operations of that order that target the resource, as discovered, without repeats. */
  lemma HolderOperationsStable(found: seq<Field>, name: string, k: int)
    ensures WithKey(Targeting(OrderedOperationMap(found), name), Key, k)
            == Dedup(WithKey(Targeting(found, name), Key, k))
  {
    var t, h := TargetsResource(name), HasKey(Key, k);
    FilterCommutes(OrderedOperationMap(found), t, h);
    OrderedMapStable(found, k);
    DedupFilter(WithKey(found, Key, k), t);
    FilterCommutes(found, t, h);
  }

  function Elements(s: seq<Field>): set<Field> {
    set f | f in s
  }

  /** The ordered operation map holds exactly the discovered fields. */
  lemma OrderedMapElements(found: seq<Field>)
    ensures Elements(OrderedOperationMap(found)) == Elements(found)
  {
    var sorted := StableSort(found, Key);
    StableSortPermutation(found, Key);
    forall f
      ensures f in OrderedOperationMap(found) <==> f in found
    {
      assert f in sorted <==> f in multiset(sorted);
      assert f in found <==> f in multiset(found);
      DedupMembers(sorted, f);
    }
  }

  lemma DedupMembers(s: seq<Field>, x: Field)
    ensures x in Dedup(s) <==> x in s
  {
    if x in Dedup(s) {
      var i :| 0 <= i < |Dedup(s)| && Dedup(s)[i] == x;
    }
    if x in s {
      var i :| 0 <= i < |s| && s[i] == x;
    }
  }

  /** The three marker scans of a test class and its enclosing classes. */
  function Sources(c: TestClass, scan: Scanner): seq<Field> {
    FindAnnotatedFieldsInHierarchy(c, scan, SourceMarker)
  }

  function BinderFields(c: TestClass, scan: Scanner): seq<Field> {
    FindAnnotatedFieldsInHierarchy(c, scan, BinderConfigurationMarker)
  }

  function OperationFields(c: TestClass, scan: Scanner): seq<Field> {
    FindAnnotatedFieldsInHierarchy(c, scan, OperationMarker)
  }

  predicate SourcesValid(c: TestClass, scan: Scanner) {
    Sources(c, scan) != [] && DistinctNames(Sources(c, scan))
  }

  predicate OrdersValid(c: TestClass, scan: Scanner) {
    forall i :: 0 <= i < |OperationFields(c, scan)| ==> Keyed(OperationFields(c, scan)[i])
  }

  predicate BinderReferencesValid(c: TestClass, scan: Scanner) {
    Referenced(Elements(BinderFields(c, scan))) <= NameSet(Sources(c, scan))
  }

  predicate OperationReferencesValid(c: TestClass, scan: Scanner) {
    Referenced(Elements(OperationFields(c, scan))) <= NameSet(Sources(c, scan))
  }

  predicate BindersUnique(c: TestClass, scan: Scanner) {
    forall n :: n in NameSet(Sources(c, scan)) ==> |BinderTargets(BinderMap(BinderFields(c, scan)), n)| < 2
  }

  /** What the introspection of postProcessTestInstance yields: the bindings when every check
      passes, otherwise the error of the first check that fails, in the order resources,
      operation orders, binder references, operation references, binder uniqueness. */
  predicate Introspected(c: TestClass, scan: Scanner, r: Result<seq<Binding>>) {
    && (r.Ok? <==> SourcesValid(c, scan) && OrdersValid(c, scan) && BinderReferencesValid(c, scan)
                   && OperationReferencesValid(c, scan) && BindersUnique(c, scan))
    && (r.Ok? ==> BindingsFor(r.value, SourceMap(Sources(c, scan)), OrderedOperationMap(OperationFields(c, scan)),
                              BinderMap(BinderFields(c, scan))))
    && (Sources(c, scan) == [] ==> r == Err(NoDataSource))
    && (Sources(c, scan) != [] && !DistinctNames(Sources(c, scan)) ==>
          exists j :: 0 < j < |Sources(c, scan)| && FirstDuplicateAt(Sources(c, scan), j)
                      && r == Err(DuplicateDataSource(Sources(c, scan)[j].sourceName)))
    && (SourcesValid(c, scan) && !OrdersValid(c, scan) ==>
          r.Err? && exists i :: 0 <= i < |OperationFields(c, scan)|
                                && GetOperationOrder(OperationFields(c, scan)[i]) == Err(r.error))
    && (SourcesValid(c, scan) && OrdersValid(c, scan) && !BinderReferencesValid(c, scan) ==>
          r.Err? && r.error.MissingDataSource?
          && r.error.name in Referenced(Elements(BinderFields(c, scan))) - NameSet(Sources(c, scan)))
    && (SourcesValid(c, scan) && OrdersValid(c, scan) && BinderReferencesValid(c, scan)
        && !OperationReferencesValid(c, scan) ==>
          r.Err? && r.error.MissingDataSource?
          && r.error.name in Referenced(Elements(OperationFields(c, scan))) - NameSet(Sources(c, scan)))
    && (SourcesValid(c, scan) && OrdersValid(c, scan) && BinderReferencesValid(c, scan)
        && OperationReferencesValid(c, scan) && !BindersUnique(c, scan) ==>
          r.Err? && r.error.DuplicateBinderConfiguration?
          && r.error.name in NameSet(Sources(c, scan))
          && |BinderTargets(BinderMap(BinderFields(c, scan)), r.error.name)| >= 2)
  }

  /** The introspection of postProcessTestInstance: collect the resources, the binder
      configurations and the ordered operations, validate every reference, then build the
      bindings. */
  method Introspect(c: TestClass, scan: Scanner) returns (r: Result<seq<Binding>>)
    ensures Introspected(c, scan, r)
  {
    var sources, binderFields, found := Sources(c, scan), BinderFields(c, scan), OperationFields(c, scan);
    var dataSources :- FindDataSourceFields(sources);
    SourceMapKeys(sources);
    var binders := FindBinderConfigurationFields(binderFields);
    var ops :- FindOperationFields(found);
    assert binders.Keys == Elements(binderFields);
    var binderCheck := ValidateDataSourceExists(dataSources, binders.Keys);
    if binderCheck.Fail? {
      return Err(binderCheck.error);
    }
    OrderedMapElements(found);
    var operationCheck := ValidateDataSourceExists(dataSources, Elements(ops));
    if operationCheck.Fail? {
      return Err(operationCheck.error);
    }
    r := BuildBindings(dataSources, ops, binders);
  }
}

/** Launching the operations of each resource before a test (DbSetupHolder.launch and
    beforeEach), and the holders postProcessTestInstance stores. The DbSetup library is not
    part of this model: its values are kept symbolic and its tracker records the calls it
    receives. */
module Launch {
  import opened Errors
  import opened Fields
  import opened Instances
  import opened Bindings

  /** new DataSourceDestination(dataSource) */
  datatype Destination = DataSourceDestination(dataSource: FieldValue)

  /** The declared binder configuration, or DefaultBinderConfiguration.INSTANCE. */
  datatype BinderConfiguration = DefaultBinderConfiguration | Declared(value: FieldValue)

  /** new DbSetup(destination, sequenceOf(operations), binderConfiguration) */
  datatype DbSetup = DbSetup(destination: Destination, operations: seq<FieldValue>,
                             binderConfiguration: BinderConfiguration)

  datatype TrackerCall = LaunchIfNecessary(setup: DbSetup) | SkipNextLaunch

  /** A DbSetupTracker, seen through the calls it receives. */
  class DbSetupTracker {
    var calls: seq<TrackerCall>

    constructor ()
      ensures calls == []
    {
      calls := [];
    }

    method LaunchIfNecessary(setup: DbSetup)
      modifies this
      ensures calls == old(calls) + [TrackerCall.LaunchIfNecessary(setup)]
    {
      calls := calls + [TrackerCall.LaunchIfNecessary(setup)];
    }

    method SkipNextLaunch()
      modifies this
      ensures calls == old(calls) + [TrackerCall.SkipNextLaunch]
    {
      calls := calls + [TrackerCall.SkipNextLaunch];
    }
  }

  /** The test about to run: its instance, and whether its method carries the skip-next
      marker. */
  datatype TestContext = TestContext(testInstance: Instance, skipNext: bool)

  /** The values of `fields` read on `inst`, in list order; the first read that fails fails
      them all. */
  function ReadAll(fields: seq<Field>, inst: Instance, assignable: Assignability): (r: Result<seq<FieldValue>>)
    ensures r.Ok? <==> forall i :: 0 <= i < |fields| ==> ReadField(fields[i], inst, assignable).Ok?
    ensures r.Ok? ==> |r.value| == |fields|
                      && forall i :: 0 <= i < |fields| ==> ReadField(fields[i], inst, assignable) == Ok(r.value[i])
    ensures r.Err? ==> r.error == NoOuterInstance
  {
    if fields == [] then Ok([])
    else
      match ReadField(fields[0], inst, assignable)
      case Err(e) => Err(e)
      case Ok(v) =>
        match ReadAll(fields[1..], inst, assignable)
        case Err(e) => Err(e)
        case Ok(vs) =>
          assert forall i :: 1 <= i < |fields| ==> fields[i] == fields[1..][i - 1];
          Ok([v] + vs)
  }

  /** The binder configuration a binding launches with. */
  function ReadBinderConfiguration(b: Option<Field>, inst: Instance, assignable: Assignability)
    : (r: Result<BinderConfiguration>)
    ensures b.None? ==> r == Ok(DefaultBinderConfiguration)
    ensures b.Some? ==> (r.Ok? <==> ReadField(b.value, inst, assignable).Ok?)
    ensures b.Some? && r.Ok? ==> r == Ok(Declared(ReadField(b.value, inst, assignable).value))
  {
    match b
    case None => Ok(DefaultBinderConfiguration)
    case Some(f) =>
      match ReadField(f, inst, assignable)
      case Err(e) => Err(e)
      case Ok(v) => Ok(Declared(v))
  }

  /** The calls one launch of binding `b` makes on its tracker. */
  function LaunchCalls(b: Binding, ctx: TestContext, assignable: Assignability): (r: Result<seq<TrackerCall>>)
    ensures b.operationFields == [] ==> r == Ok([])
    ensures b.operationFields != [] ==>
              (r.Ok? <==> ReadField(b.dataSourceField, ctx.testInstance, assignable).Ok?
                          && ReadAll(b.operationFields, ctx.testInstance, assignable).Ok?
                          && ReadBinderConfiguration(b.binderConfigurationField, ctx.testInstance, assignable).Ok?)
    ensures b.operationFields != [] && r.Ok? ==>
              && |r.value| == (if ctx.skipNext then 2 else 1)
              && r.value[0].LaunchIfNecessary?
              && r.value[0].setup
                 == DbSetup(DataSourceDestination(ReadField(b.dataSourceField, ctx.testInstance, assignable).value),
                            ReadAll(b.operationFields, ctx.testInstance, assignable).value,
                            ReadBinderConfiguration(b.binderConfigurationField, ctx.testInstance, assignable).value)
              && r.value[0].setup.destination.dataSource.field == b.dataSourceField
              && |r.value[0].setup.operations| == |b.operationFields|
              && (forall i :: 0 <= i < |b.operationFields| ==>
                    r.value[0].setup.operations[i].field == b.operationFields[i])
              && (b.binderConfigurationField.None? ==>
                    r.value[0].setup.binderConfiguration == DefaultBinderConfiguration)
              && (ctx.skipNext ==> r.value[1] == SkipNextLaunch)
    ensures r.Err? ==> r.error == NoOuterInstance
  {
    if b.operationFields == [] then Ok([])
    else
      var inst := ctx.testInstance;
      match ReadField(b.dataSourceField, inst, assignable)
      case Err(e) => Err(e)
      case Ok(dataSource) =>
        match ReadAll(b.operationFields, inst, assignable)
        case Err(e) => Err(e)
        case Ok(operations) =>
          match ReadBinderConfiguration(b.binderConfigurationField, inst, assignable)
          case Err(e) => Err(e)
          case Ok(configuration) =>
            var setup := DbSetup(DataSourceDestination(dataSource), operations, configuration);
            Ok([TrackerCall.LaunchIfNecessary(setup)] + (if ctx.skipNext then [TrackerCall.SkipNextLaunch] else []))
  }

  /** A DbSetupHolder: a binding and the tracker of its own launches. */
  class DbSetupHolder {
    const binding: Binding
    const tracker: DbSetupTracker

    constructor (binding: Binding)
      ensures this.binding == binding
      ensures fresh(tracker) && tracker.calls == []
    {
      this.binding := binding;
      tracker := new DbSetupTracker();
    }

    /** launch: nothing without operations; otherwise read every field, launch once, and
        skip the next launch when the test method asks for it. A failing read leaves the
        tracker untouched. */
    method Launch(ctx: TestContext, assignable: Assignability) returns (r: Outcome)
      modifies tracker
      ensures LaunchCalls(binding, ctx, assignable).Ok? ==>
                r == Pass && tracker.calls == old(tracker.calls) + LaunchCalls(binding, ctx, assignable).value
      ensures LaunchCalls(binding, ctx, assignable).Err? ==>
                r == Fail(LaunchCalls(binding, ctx, assignable).error) && tracker.calls == old(tracker.calls)
    {
      var ops := binding.operationFields;
      if ops == [] {
        return Pass;
      }
      var inst := ctx.testInstance;
      var dataSource := GetFieldValue(binding.dataSourceField, inst, assignable);
      if dataSource.Err? {
        return Fail(dataSource.error);
      }
      var operations: seq<FieldValue> := [];
      for i := 0 to |ops|
        invariant tracker.calls == old(tracker.calls)
        invariant |operations| == i
        invariant forall j :: 0 <= j < i ==> ReadField(ops[j], inst, assignable) == Ok(operations[j])
      {
        var v := GetFieldValue(ops[i], inst, assignable);
        if v.Err? {
          return Fail(v.error);
        }
        operations := operations + [v.value];
      }
      ReadAllOk(ops, inst, assignable, operations);
      var configuration: BinderConfiguration := DefaultBinderConfiguration;
      if binding.binderConfigurationField.Some? {
        var v := GetFieldValue(binding.binderConfigurationField.value, inst, assignable);
        if v.Err? {
          return Fail(v.error);
        }
        configuration := Declared(v.value);
      }
      var setup := DbSetup(DataSourceDestination(dataSource.value), operations, configuration);
      tracker.LaunchIfNecessary(setup);
      if ctx.skipNext {
        tracker.SkipNextLaunch();
      }
      return Pass;
    }
  }

  /** Reading every field one by one gives ReadAll's values. */
  lemma {:induction false} ReadAllOk(fields: seq<Field>, inst: Instance, assignable: Assignability, vs: seq<FieldValue>)
    requires |vs| == |fields|
    requires forall i :: 0 <= i < |fields| ==> ReadField(fields[i], inst, assignable) == Ok(vs[i])
    ensures ReadAll(fields, inst, assignable) == Ok(vs)
  {
    if fields != [] {
      ReadAllOk(fields[1..], inst, assignable, vs[1..]);
      assert vs == [vs[0]] + vs[1..];
    }
  }

  predicate DistinctTrackers(holders: seq<DbSetupHolder>) {
    forall i, j :: 0 <= i < j < |holders| ==> holders[i].tracker != holders[j].tracker
  }

  function Trackers(holders: seq<DbSetupHolder>): set<DbSetupTracker> {
    set i | 0 <= i < |holders| :: holders[i].tracker
  }

  /** The position of the first holder whose launch fails, or the number of holders when
      none does. */
  function FirstFailingLaunch(holders: seq<DbSetupHolder>, ctx: TestContext, assignable: Assignability): (k: nat)
    ensures k <= |holders|
    ensures forall i :: 0 <= i < k ==> LaunchCalls(holders[i].binding, ctx, assignable).Ok?
    ensures k < |holders| ==> LaunchCalls(holders[k].binding, ctx, assignable).Err?
  {
    if holders == [] then 0
    else if LaunchCalls(holders[0].binding, ctx, assignable).Err? then 0
    else
      var k := FirstFailingLaunch(holders[1..], ctx, assignable);
      assert forall i :: 1 <= i < |holders| ==> holders[i] == holders[1..][i - 1];
      1 + k
  }

  /** beforeEach: launches the holders in list order and stops at the first failure; the
      holders before it have launched, the failing one and those after it are untouched. */
  method BeforeEach(holders: seq<DbSetupHolder>, ctx: TestContext, assignable: Assignability) returns (r: Outcome)
    requires DistinctTrackers(holders)
    modifies Trackers(holders)
    ensures var k := FirstFailingLaunch(holders, ctx, assignable);
            && (k == |holders| ==> r == Pass)
            && (k < |holders| ==> r == Fail(LaunchCalls(holders[k].binding, ctx, assignable).error))
            && (forall i :: 0 <= i < k ==>
                  holders[i].tracker.calls
                  == old(holders[i].tracker.calls) + LaunchCalls(holders[i].binding, ctx, assignable).value)
            && (forall i :: k <= i < |holders| ==> holders[i].tracker.calls == old(holders[i].tracker.calls))
  {
    ghost var k := FirstFailingLaunch(holders, ctx, assignable);
    for n := 0 to |holders|
      invariant n <= k
      invariant forall i :: 0 <= i < n ==>
                  holders[i].tracker.calls
                  == old(holders[i].tracker.calls) + LaunchCalls(holders[i].binding, ctx, assignable).value
      invariant forall i :: n <= i < |holders| ==> holders[i].tracker.calls == old(holders[i].tracker.calls)
    {
      if LaunchCalls(holders[n].binding, ctx, assignable).Err? {
        assert n == k;
      }
      var outcome := LaunchAt(holders, n, ctx, assignable);
      if outcome.Fail? {
        return outcome;
      }
    }
    return Pass;
  }

  /** The launch of the holder at `n`, which leaves the trackers of the other holders alone. */
  method LaunchAt(holders: seq<DbSetupHolder>, n: int, ctx: TestContext, assignable: Assignability)
    returns (r: Outcome)
    requires 0 <= n < |holders| && DistinctTrackers(holders)
    modifies holders[n].tracker
    ensures LaunchCalls(holders[n].binding, ctx, assignable).Ok? ==>
              r == Pass && holders[n].tracker.calls
                           == old(holders[n].tracker.calls) + LaunchCalls(holders[n].binding, ctx, assignable).value
    ensures LaunchCalls(holders[n].binding, ctx, assignable).Err? ==>
              r.Fail? && r == Fail(LaunchCalls(holders[n].binding, ctx, assignable).error)
              && holders[n].tracker.calls == old(holders[n].tracker.calls)
    ensures forall i :: 0 <= i < |holders| && i != n ==> holders[i].tracker.calls == old(holders[i].tracker.calls)
  {
    r := holders[n].Launch(ctx, assignable);
  }

  function BindingsOf(holders: seq<DbSetupHolder>): (r: seq<Binding>)
    ensures |r| == |holders|
    ensures forall i :: 0 <= i < |holders| ==> r[i] == holders[i].binding
  {
    if holders == [] then [] else [holders[0].binding] + BindingsOf(holders[1..])
  }

  /** One new holder per binding, in order, each with a tracker of its own. */
  method NewHolders(bindings: seq<Binding>) returns (holders: seq<DbSetupHolder>)
    ensures BindingsOf(holders) == bindings
    ensures DistinctTrackers(holders)
    ensures forall i :: 0 <= i < |holders| ==> fresh(holders[i].tracker) && holders[i].tracker.calls == []
  {
    holders := [];
    for i := 0 to |bindings|
      invariant BindingsOf(holders) == bindings[..i]
      invariant DistinctTrackers(holders)
      invariant forall j :: 0 <= j < i ==> fresh(holders[j].tracker) && holders[j].tracker.calls == []
    {
      var holder := new DbSetupHolder(bindings[i]);
      assert forall j :: 0 <= j < i ==> holders[j].tracker != holder.tracker;
      BindingsOfSnoc(holders, holder);
      assert bindings[..i + 1] == bindings[..i] + [bindings[i]];
      holders := holders + [holder];
    }
    assert bindings[..|bindings|] == bindings;
  }

  /** postProcessTestInstance: the introspected bindings, each in a holder with a tracker of
      its own that has seen no call yet. */
  method PostProcessTestInstance(c: TestClass, scan: Scanner) returns (r: Result<seq<DbSetupHolder>>)
    ensures r.Ok? ==> Introspected(c, scan, Ok(BindingsOf(r.value)))
    ensures r.Err? ==> Introspected(c, scan, Err(r.error))
    ensures r.Ok? ==> DistinctTrackers(r.value)
    ensures r.Ok? ==> forall i :: 0 <= i < |r.value| ==> fresh(r.value[i].tracker) && r.value[i].tracker.calls == []
  {
    var introspected := Introspect(c, scan);
    if introspected.Err? {
      return Err(introspected.error);
    }
    var holders := NewHolders(introspected.value);
    return Ok(holders);
  }

  lemma BindingsOfSnoc(holders: seq<DbSetupHolder>, h: DbSetupHolder)
    ensures BindingsOf(holders + [h]) == BindingsOf(holders) + [h.binding]
  {
  }
}

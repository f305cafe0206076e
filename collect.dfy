/** Collecting the resource and binder-configuration fields of a test class, and checking
    that every resource a marker refers to is declared (findDataSourceFields,
    findBinderConfigurationFields, validateDataSourceExists). */
module Collect {
  import opened Errors
  import opened Fields

  /** The resource names of the fields `s`. */
  function NameSet(s: seq<Field>): set<string> {
    set i | 0 <= i < |s| :: s[i].sourceName
  }

  /** No two of the fields `s` declare a resource of the same name. */
  predicate DistinctNames(s: seq<Field>) {
    forall i, j :: 0 <= i < j < |s| ==> s[i].sourceName != s[j].sourceName
  }

  /** The field at `j` is the first whose name an earlier field already declared. */
  predicate FirstDuplicateAt(s: seq<Field>, j: int) {
    0 < j < |s| && DistinctNames(s[..j]) && s[j].sourceName in NameSet(s[..j])
  }

  /** The resource names referred to by the fields of a marker map, whose value for a field
      is its `targets`. */
  function Referenced(fields: set<Field>): set<string> {
    set f, n | f in fields && n in f.targets :: n
  }

  /** The map that storing each field under its resource name, in list order, builds. */
  function SourceMap(s: seq<Field>): map<string, Field> {
    if s == [] then map[]
    else SourceMap(s[..|s| - 1])[s[|s| - 1].sourceName := s[|s| - 1]]
  }

  lemma SourceMapStep(s: seq<Field>, x: Field)
    ensures SourceMap(s + [x]) == SourceMap(s)[x.sourceName := x]
  {
    assert (s + [x])[..|s|] == s;
  }

  /** The binder-configuration map: each field mapped to the resources it targets. */
  function BinderMap(found: seq<Field>): (r: map<Field, seq<string>>)
    ensures forall f :: f in r <==> f in found
    ensures forall f :: f in r ==> r[f] == f.targets
  {
    map f | f in found :: f.targets
  }

  /** findDataSourceFields: every resource field is stored under its resource name. There
      must be at least one, and a second field under a name already stored is an error. */
  method FindDataSourceFields(sources: seq<Field>) returns (r: Result<map<string, Field>>)
    ensures sources == [] ==> r == Err(NoDataSource)
    ensures r.Ok? <==> sources != [] && DistinctNames(sources)
    ensures r.Ok? ==> r.value == SourceMap(sources)
    ensures r.Err? && sources != [] ==>
              exists j :: FirstDuplicateAt(sources, j) && r.error == DuplicateDataSource(sources[j].sourceName)
  {
    if sources == [] {
      return Err(NoDataSource);
    }
    var m: map<string, Field> := map[];
    for i := 0 to |sources|
      invariant DistinctNames(sources[..i])
      invariant m == SourceMap(sources[..i])
    {
      var name := sources[i].sourceName;
      SourceMapKeys(sources[..i]);
      if name in m {
        assert FirstDuplicateAt(sources, i);
        NotDistinctAt(sources, i);
        return Err(DuplicateDataSource(name));
      }
      assert sources[..i + 1] == sources[..i] + [sources[i]];
      SourceMapStep(sources[..i], sources[i]);
      m := m[name := sources[i]];
    }
    assert sources[..|sources|] == sources;
    return Ok(m);
  }

  lemma {:induction false} SourceMapKeys(s: seq<Field>)
    ensures SourceMap(s).Keys == NameSet(s)
  {
    if s != [] {
      var s' := s[..|s| - 1];
      SourceMapKeys(s');
      assert s == s' + [s[|s| - 1]];
      assert NameSet(s) == NameSet(s') + {s[|s| - 1].sourceName};
    }
  }

  /** With distinct names, every resource field is stored under its own name. */
  lemma {:induction false} SourceMapValues(s: seq<Field>)
    requires DistinctNames(s)
    ensures forall i :: 0 <= i < |s| ==> s[i].sourceName in SourceMap(s) && SourceMap(s)[s[i].sourceName] == s[i]
  {
    if s != [] {
      var s' := s[..|s| - 1];
      assert DistinctNames(s');
      SourceMapValues(s');
      forall i | 0 <= i < |s| - 1
        ensures s[i].sourceName in SourceMap(s) && SourceMap(s)[s[i].sourceName] == s[i]
      {
        assert s[i] == s'[i];
      }
    }
  }

  /** A repeated name at `j` makes the whole list fail DistinctNames. */
  lemma NotDistinctAt(s: seq<Field>, j: int)
    requires FirstDuplicateAt(s, j)
    ensures !DistinctNames(s)
  {
    var k :| 0 <= k < j && s[..j][k].sourceName == s[j].sourceName;
    assert s[k].sourceName == s[j].sourceName;
  }

  /** findBinderConfigurationFields: the binder-configuration fields, each mapped to the
      resources it targets. */
  method FindBinderConfigurationFields(found: seq<Field>) returns (r: map<Field, seq<string>>)
    ensures r == BinderMap(found)
  {
    r := map[];
    if found == [] {
      return;
    }
    for i := 0 to |found|
      invariant forall f :: f in r <==> f in found[..i]
      invariant forall f :: f in r ==> r[f] == f.targets
    {
      assert found[..i + 1] == found[..i] + [found[i]];
      r := r[found[i] := found[i].targets];
    }
    assert found[..|found|] == found;
    assert r.Keys == BinderMap(found).Keys;
  }

  /** validateDataSourceExists: first the set of all referenced names, then a check of each
      name against the declared resources. Which missing name is reported depends on the
      iteration order of the set, which the model leaves open. */
  method ValidateDataSourceExists(dataSources: map<string, Field>, fields: set<Field>) returns (r: Outcome)
    ensures r.Pass? <==> Referenced(fields) <= dataSources.Keys
    ensures r.Fail? ==> r.error.MissingDataSource? && r.error.name in Referenced(fields)
                        && r.error.name !in dataSources
  {
    var names: set<string> := {};
    var rest := fields;
    while rest != {}
      invariant rest <= fields
      invariant names == Referenced(fields - rest)
      decreases rest
    {
      var f :| f in rest;
      ReferencedAdd(fields - rest, f);
      assert fields - (rest - {f}) == (fields - rest) + {f};
      names := names + (set n | n in f.targets);
      rest := rest - {f};
    }
    assert fields - rest == fields;
    var unchecked := names;
    while unchecked != {}
      invariant unchecked <= names
      invariant forall n :: n in names && n !in unchecked ==> n in dataSources
      decreases unchecked
    {
      var n :| n in unchecked;
      if n !in dataSources {
        return Fail(MissingDataSource(n));
      }
      unchecked := unchecked - {n};
    }
    return Pass;
  }

  lemma ReferencedAdd(fields: set<Field>, f: Field)
    ensures Referenced(fields + {f}) == Referenced(fields) + (set n | n in f.targets)
  {
  }
}

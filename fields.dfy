/** Fields of a test class, the chain of enclosing classes, and the marker-driven field scan
    (findAnnotatedFieldsInHierarchy). */
module Fields {
  import opened Errors

  type ClassId = string

  const INT_MAX: int := 0x7fff_ffff

  /** Java's 32-bit int. */
  type Int32 = x: int | -0x8000_0000 <= x <= 0x7fff_ffff

  /** A reflected field: where it is declared, its name, whether it is static, and the
      attributes of the markers it carries. `sourceName` is the `name` of its resource
      marker; `targets` the `sources` of its operation or binder-configuration marker;
      `order` the `order` of its operation marker (negative when not given). */
  datatype Field = Field(
    declaringClass: ClassId,
    name: string,
    isStatic: bool,
    sourceName: string,
    targets: seq<string>,
    order: Int32)

  datatype Marker = SourceMarker | BinderConfigurationMarker | OperationMarker

  /** A test class, and for a member class the class that declares it. */
  datatype TestClass = TestClass(id: ClassId, declaringClass: Option<TestClass>)

  /** The reflection capability: the fields of one class carrying a marker, its superclasses'
      fields first (top-down traversal). */
  type Scanner = (ClassId, Marker) -> seq<Field>

  /** The fields carrying `m` in `c` and its enclosing classes, outermost class first. */
  function FindAnnotatedFieldsInHierarchy(c: TestClass, scan: Scanner, m: Marker): seq<Field>
    decreases c
  {
    (match c.declaringClass
     case Some(outer) => FindAnnotatedFieldsInHierarchy(outer, scan, m)
     case None => [])
    + scan(c.id, m)
  }

  /** The class ids from `c` outwards: `c` first, its declaring class next, and so on. */
  function EnclosingClasses(c: TestClass): (r: seq<ClassId>)
    ensures |r| >= 1 && r[0] == c.id
    decreases c
  {
    match c.declaringClass
    case Some(outer) => [c.id] + EnclosingClasses(outer)
    case None => [c.id]
  }

  function Reversed<T>(s: seq<T>): (r: seq<T>)
    ensures |r| == |s|
    ensures forall i :: 0 <= i < |s| ==> r[i] == s[|s| - 1 - i]
  {
    if s == [] then [] else Reversed(s[1..]) + [s[0]]
  }

  /** The scans of the classes `ids`, concatenated in that order. */
  function ScanAll(ids: seq<ClassId>, scan: Scanner, m: Marker): seq<Field> {
    if ids == [] then [] else scan(ids[0], m) + ScanAll(ids[1..], scan, m)
  }

  lemma {:induction false} ScanAllAppend(a: seq<ClassId>, b: seq<ClassId>, scan: Scanner, m: Marker)
    ensures ScanAll(a + b, scan, m) == ScanAll(a, scan, m) + ScanAll(b, scan, m)
  {
    if a != [] {
      assert (a + b)[0] == a[0];
      assert (a + b)[1..] == a[1..] + b;
      ScanAllAppend(a[1..], b, scan, m);
      assert ScanAll(a + b, scan, m) == scan(a[0], m) + (ScanAll(a[1..], scan, m) + ScanAll(b, scan, m));
    } else {
      assert a + b == b;
    }
  }

  /** The hierarchy scan visits the enclosing classes outermost first and concatenates their
      fields in that order. */
  lemma {:induction false} HierarchyIsOutermostFirst(c: TestClass, scan: Scanner, m: Marker)
    ensures FindAnnotatedFieldsInHierarchy(c, scan, m) == ScanAll(Reversed(EnclosingClasses(c)), scan, m)
    decreases c
  {
    match c.declaringClass
    case None =>
      assert Reversed(EnclosingClasses(c)) == [c.id];
    case Some(outer) =>
      HierarchyIsOutermostFirst(outer, scan, m);
      var rest := EnclosingClasses(outer);
      assert ([c.id] + rest)[1..] == rest;
      assert Reversed(EnclosingClasses(c)) == Reversed(rest) + [c.id];
      ScanAllAppend(Reversed(rest), [c.id], scan, m);
      assert ScanAll([c.id], scan, m) == scan(c.id, m);
  }

  /** A field is found exactly when some class of the enclosing chain declares (or inherits)
      it with the marker. */
  lemma {:induction false} HierarchyMembers(c: TestClass, scan: Scanner, m: Marker, f: Field)
    ensures f in FindAnnotatedFieldsInHierarchy(c, scan, m) ==>
              exists k :: 0 <= k < |EnclosingClasses(c)| && f in scan(EnclosingClasses(c)[k], m)
    ensures (exists k :: 0 <= k < |EnclosingClasses(c)| && f in scan(EnclosingClasses(c)[k], m)) ==>
              f in FindAnnotatedFieldsInHierarchy(c, scan, m)
    decreases c
  {
    var chain := EnclosingClasses(c);
    match c.declaringClass
    case None =>
      assert chain == [c.id];
    case Some(outer) =>
      HierarchyMembers(outer, scan, m, f);
      var rest := EnclosingClasses(outer);
      assert chain == [c.id] + rest;
      assert FindAnnotatedFieldsInHierarchy(c, scan, m)
          == FindAnnotatedFieldsInHierarchy(outer, scan, m) + scan(c.id, m);
      if f in FindAnnotatedFieldsInHierarchy(c, scan, m) {
        if f in scan(c.id, m) {
          assert 0 < |chain| && f in scan(chain[0], m);
        } else {
          var k :| 0 <= k < |rest| && f in scan(rest[k], m);
          assert chain[k + 1] == rest[k];
          assert 0 <= k + 1 < |chain| && f in scan(chain[k + 1], m);
        }
      }
      if exists k :: 0 <= k < |chain| && f in scan(chain[k], m) {
        var k :| 0 <= k < |chain| && f in scan(chain[k], m);
        if k > 0 {
          assert rest[k - 1] == chain[k];
          assert f in FindAnnotatedFieldsInHierarchy(outer, scan, m) by {
            assert 0 <= k - 1 < |rest| && f in scan(rest[k - 1], m);
          }
        } else {
          assert chain[0] == c.id;
          assert f in scan(c.id, m);
        }
        assert f in FindAnnotatedFieldsInHierarchy(c, scan, m);
      }
  }
}

/** The ordering of operation fields (findOperationFields): a stable sort by operation order,
    copied into an insertion-ordered map keyed by field. */
module Sorting {
  import opened Errors
  import opened Fields
  import opened Order
  import opened Seqs

  predicate Keyed(f: Field) {
    GetOperationOrder(f).Ok?
  }

  /** The key Comparator.comparingInt(getOperationOrder) compares. The -1 of a field whose
      order does not resolve is never compared: sorting fails before it, or the list has a
      single element. */
  function Key(f: Field): int {
    match GetOperationOrder(f)
    case Ok(k) => k
    case Err(_) => -1
  }

  type KeyFn = Field -> int

  function HasKey(key: KeyFn, k: int): Field -> bool {
    f => key(f) == k
  }

  /** The fields of `s` whose key is `k`, in their order in `s`. */
  function WithKey(s: seq<Field>, key: KeyFn, k: int): seq<Field> {
    Filter(s, HasKey(key, k))
  }

  predicate SortedBy(s: seq<Field>, key: KeyFn) {
    forall i, j :: 0 <= i < j < |s| ==> key(s[i]) <= key(s[j])
  }

  /** Places `x` after every element whose key is not greater than its own. */
  function Insert(x: Field, s: seq<Field>, key: KeyFn): seq<Field> {
    if s == [] || key(s[|s| - 1]) <= key(x) then s + [x]
    else Insert(x, s[..|s| - 1], key) + [s[|s| - 1]]
  }

  /** Insertion sort by key: a stable sort, as List.sort is. */
  function StableSort(s: seq<Field>, key: KeyFn): seq<Field> {
    if s == [] then []
    else Insert(s[|s| - 1], StableSort(s[..|s| - 1], key), key)
  }

  lemma {:induction false} InsertPermutation(x: Field, s: seq<Field>, key: KeyFn)
    ensures multiset(Insert(x, s, key)) == multiset(s) + multiset{x}
  {
    if s != [] && key(s[|s| - 1]) > key(x) {
      InsertPermutation(x, s[..|s| - 1], key);
      assert s == s[..|s| - 1] + [s[|s| - 1]];
    }
  }

  /** The sort neither loses nor adds a field. */
  lemma {:induction false} StableSortPermutation(s: seq<Field>, key: KeyFn)
    ensures multiset(StableSort(s, key)) == multiset(s)
  {
    if s != [] {
      var s', x := s[..|s| - 1], s[|s| - 1];
      StableSortPermutation(s', key);
      InsertPermutation(x, StableSort(s', key), key);
      assert s == s' + [x];
      assert multiset(s) == multiset(s') + multiset{x};
    }
  }

  lemma {:induction false} InsertSorted(x: Field, s: seq<Field>, key: KeyFn)
    requires SortedBy(s, key)
    ensures SortedBy(Insert(x, s, key), key)
  {
    if s != [] && key(s[|s| - 1]) > key(x) {
      var s' := s[..|s| - 1];
      var last := s[|s| - 1];
      assert SortedBy(s', key);
      InsertSorted(x, s', key);
      InsertBelow(x, s', last, key);
      SortedSnoc(Insert(x, s', key), last, key);
    }
  }

  /** Inserting below a bound keeps every element below it. */
  lemma InsertBelow(x: Field, s: seq<Field>, bound: Field, key: KeyFn)
    requires forall i :: 0 <= i < |s| ==> key(s[i]) <= key(bound)
    requires key(x) <= key(bound)
    ensures forall i :: 0 <= i < |Insert(x, s, key)| ==> key(Insert(x, s, key)[i]) <= key(bound)
  {
    var r := Insert(x, s, key);
    InsertPermutation(x, s, key);
    forall i | 0 <= i < |r| ensures key(r[i]) <= key(bound) {
      assert r[i] in multiset(r);
    }
  }

  lemma SortedSnoc(s: seq<Field>, y: Field, key: KeyFn)
    requires SortedBy(s, key)
    requires forall i :: 0 <= i < |s| ==> key(s[i]) <= key(y)
    ensures SortedBy(s + [y], key)
  {
  }

  lemma FilterSingleton(x: Field, p: Field -> bool)
    ensures Filter([x], p) == if p(x) then [x] else []
  {
    assert [x][..0] == [];
  }

  lemma {:induction false} InsertWithKey(x: Field, s: seq<Field>, key: KeyFn, k: int)
    ensures WithKey(Insert(x, s, key), key, k) == WithKey(s, key, k) + (if key(x) == k then [x] else [])
  {
    var p := HasKey(key, k);
    if s == [] || key(s[|s| - 1]) <= key(x) {
      FilterSingleton(x, p);
      FilterAppend(s, [x], p);
    } else {
      var s' := s[..|s| - 1];
      var last := s[|s| - 1];
      InsertWithKey(x, s', key, k);
      InsertPastGreater(x, s', last, key, k);
    }
  }

  lemma InsertStep(x: Field, s: seq<Field>, last: Field, key: KeyFn)
    requires key(last) > key(x)
    ensures Insert(x, s + [last], key) == Insert(x, s, key) + [last]
  {
    var s' := s + [last];
    assert s'[..|s'| - 1] == s && s'[|s'| - 1] == last;
  }

  lemma FilterStep(s: seq<Field>, last: Field, p: Field -> bool)
    ensures Filter(s + [last], p) == Filter(s, p) + (if p(last) then [last] else [])
  {
    var s' := s + [last];
    assert s'[..|s'| - 1] == s && s'[|s'| - 1] == last;
  }

  /** The step of InsertWithKey where `x` moves before a last element of greater key. */
  lemma InsertPastGreater(x: Field, s: seq<Field>, last: Field, key: KeyFn, k: int)
    requires key(last) > key(x)
    requires WithKey(Insert(x, s, key), key, k) == WithKey(s, key, k) + (if key(x) == k then [x] else [])
    ensures WithKey(Insert(x, s + [last], key), key, k)
            == WithKey(s + [last], key, k) + (if key(x) == k then [x] else [])
  {
    var p := HasKey(key, k);
    var tail := if p(last) then [last] else [];
    InsertStep(x, s, last, key);
    FilterStep(Insert(x, s, key), last, p);
    FilterStep(s, last, p);
    if key(x) == k {
      assert tail == [];
      assert Filter(Insert(x, s + [last], key), p) == Filter(s, p) + [x];
    } else {
      assert Filter(Insert(x, s + [last], key), p) == Filter(s, p) + tail;
    }
  }

  lemma {:induction false} InsertDistinct(x: Field, s: seq<Field>, key: KeyFn)
    requires Distinct(s) && x !in s
    ensures Distinct(Insert(x, s, key))
  {
    if s != [] && key(s[|s| - 1]) > key(x) {
      var s' := s[..|s| - 1];
      var last := s[|s| - 1];
      InsertDistinct(x, s', key);
      InsertPermutation(x, s', key);
      assert last !in multiset(Insert(x, s', key));
    }
  }

  lemma {:induction false} StableSortSorted(s: seq<Field>, key: KeyFn)
    ensures SortedBy(StableSort(s, key), key)
  {
    if s != [] {
      StableSortSorted(s[..|s| - 1], key);
      InsertSorted(s[|s| - 1], StableSort(s[..|s| - 1], key), key);
    }
  }

  /** Stability: among the fields of one key, the sort keeps their order. */
  lemma {:induction false} StableSortStable(s: seq<Field>, key: KeyFn, k: int)
    ensures WithKey(StableSort(s, key), key, k) == WithKey(s, key, k)
  {
    if s != [] {
      var s' := s[..|s| - 1];
      var x := s[|s| - 1];
      StableSortStable(s', key, k);
      InsertWithKey(x, StableSort(s', key), key, k);
    }
  }

  lemma {:induction false} StableSortDistinct(s: seq<Field>, key: KeyFn)
    requires Distinct(s)
    ensures Distinct(StableSort(s, key))
  {
    if s != [] {
      var s' := s[..|s| - 1];
      var x := s[|s| - 1];
      assert Distinct(s');
      StableSortDistinct(s', key);
      StableSortPermutation(s', key);
      assert x !in multiset(StableSort(s', key));
      InsertDistinct(x, StableSort(s', key), key);
    }
  }

  lemma {:induction false} FilterSorted(s: seq<Field>, p: Field -> bool, key: KeyFn)
    requires SortedBy(s, key)
    ensures SortedBy(Filter(s, p), key)
  {
    if s != [] {
      var s' := s[..|s| - 1];
      var x := s[|s| - 1];
      FilterSorted(s', p, key);
      var r' := Filter(s', p);
      forall i | 0 <= i < |r'| ensures key(r'[i]) <= key(x) {
        FilterMembers(s', p, r'[i]);
      }
    }
  }

  lemma {:induction false} DedupSorted(s: seq<Field>, key: KeyFn)
    requires SortedBy(s, key)
    ensures SortedBy(Dedup(s), key)
  {
    if s != [] {
      var s' := s[..|s| - 1];
      DedupSorted(s', key);
    }
  }

  /** The error of the first field, in discovery order, whose order does not resolve. */
  function FirstOrderError(found: seq<Field>): (r: Option<Error>)
    ensures r.None? <==> forall i :: 0 <= i < |found| ==> Keyed(found[i])
    ensures r.Some? ==> exists i :: 0 <= i < |found| && GetOperationOrder(found[i]) == Err(r.value)
  {
    if found == [] then None
    else
      match GetOperationOrder(found[0])
      case Err(e) => Some(e)
      case Ok(_) =>
        var r := FirstOrderError(found[1..]);
        assert forall i :: 1 <= i < |found| ==> found[i] == found[1..][i - 1];
        r
  }

  /** The sort as the source writes it: List.sort never calls the comparator on a list of
      fewer than two fields, so the order of a lone field is never checked. */
  function SortOperationsAsWritten(found: seq<Field>): (r: Result<seq<Field>>)
  {
    if |found| < 2 then Ok(found) else SortOperations(found)
  }

  /** The sort as intended: it fails exactly when some field's order does not resolve. */
  function SortOperations(found: seq<Field>): (r: Result<seq<Field>>)
    ensures r.Err? <==> exists i :: 0 <= i < |found| && !Keyed(found[i])
    ensures r.Err? ==> exists i :: 0 <= i < |found| && GetOperationOrder(found[i]) == Err(r.error)
    ensures r.Ok? ==> SortedBy(r.value, Key) && multiset(r.value) == multiset(found)
  {
    match FirstOrderError(found)
    case Some(e) => Err(e)
    case None =>
      StableSortSorted(found, Key);
      StableSortPermutation(found, Key);
      Ok(StableSort(found, Key))
  }

  /** A lone operation field without an order is accepted as written; the intended sort
      rejects it. */
  lemma LoneUnorderedOperationIsAccepted(f: Field)
    requires !Keyed(f)
    ensures SortOperationsAsWritten([f]) == Ok([f])
    ensures SortOperations([f]).Err?
  {
    assert !Keyed([f][0]);
  }

  /** A concrete such field: no explicit order, and a name without trailing digits. */
  lemma SetupFieldIsUnordered()
    ensures !Keyed(Field("SomeTest", "setup", false, "", ["db"], -1))
  {
    var name := "setup";
    assert !IsDigit(name[|name| - 1]);
  }

  /** The insertion-ordered map of the sorted fields: a repeated field keeps its first
      position. */
  function OrderedOperationMap(found: seq<Field>): seq<Field> {
    Dedup(StableSort(found, Key))
  }

  /** Sorts `a` in place by insertion: each element in turn moves left past the elements of
      greater key before it. The result is the stable sort of the old contents. */
  method SortInPlace(a: array<Field>, key: KeyFn)
    modifies a
    ensures a[..] == StableSort(old(a[..]), key)
  {
    ghost var original := a[..];
    for i := 0 to a.Length
      invariant a[..i] == StableSort(original[..i], key)
      invariant a[i..] == original[i..]
    {
      assert a[i] == original[i];
      InsertInPlace(a, i, key);
      assert original[..i + 1] == original[..i] + [original[i]];
      StableSortSnoc(original[..i], original[i], key);
    }
    assert original[..a.Length] == original;
  }

  /** The inner loop of the insertion sort: `a[i]` moves left past the elements of greater
      key, which shift one place right. */
  method InsertInPlace(a: array<Field>, i: int, key: KeyFn)
    requires 0 <= i < a.Length
    modifies a
    ensures a[..i + 1] == Insert(old(a[i]), old(a[..i]), key)
    ensures a[i + 1..] == old(a[i + 1..])
  {
    ghost var sorted := a[..i];
    var x := a[i];
    var j := i;
    while j > 0 && key(a[j - 1]) > key(x)
      invariant 0 <= j <= i
      invariant a[..j] == sorted[..j]
      invariant a[j + 1..i + 1] == sorted[j..i]
      invariant a[i + 1..] == old(a[i + 1..])
      invariant Insert(x, sorted, key) == Insert(x, sorted[..j], key) + sorted[j..i]
    {
      ShiftStep(x, sorted, j, key);
      ghost var before := a[..];
      a[j] := a[j - 1];
      assert a[..] == before[j := before[j - 1]];
      Shifted(before, sorted, i, j);
      j := j - 1;
    }
    InsertAtEnd(x, sorted[..j], key);
    ghost var before := a[..];
    a[j] := x;
    assert a[..] == before[j := x];
    Placed(before, sorted, x, i, j);
  }

  /** One shift of the inner loop moves the gap one place left. */
  lemma Shifted(before: seq<Field>, sorted: seq<Field>, i: int, j: int)
    requires 0 < j <= i < |before| && |sorted| == i
    requires before[..j] == sorted[..j]
    requires before[j + 1..i + 1] == sorted[j..i]
    ensures before[j := before[j - 1]][..j - 1] == sorted[..j - 1]
    ensures before[j := before[j - 1]][j..i + 1] == sorted[j - 1..i]
    ensures before[j := before[j - 1]][i + 1..] == before[i + 1..]
  {
    var after := before[j := before[j - 1]];
    assert before[j - 1] == sorted[j - 1];
    assert after[j..i + 1] == [after[j]] + after[j + 1..i + 1];
    assert sorted[j - 1..i] == [sorted[j - 1]] + sorted[j..i];
  }

  /** The final store of the inner loop puts `x` into the gap the shifts left. */
  lemma Placed(before: seq<Field>, sorted: seq<Field>, x: Field, i: int, j: int)
    requires 0 <= j <= i < |before| && |sorted| == i
    requires before[..j] == sorted[..j]
    requires before[j + 1..i + 1] == sorted[j..i]
    ensures before[j := x][..i + 1] == sorted[..j] + [x] + sorted[j..i]
    ensures before[j := x][i + 1..] == before[i + 1..]
  {
    var after := before[j := x];
    assert after[..i + 1] == after[..j] + [after[j]] + after[j + 1..i + 1];
  }

  /** One shift of the inner loop: moving past an element of greater key is the step of
      Insert that keeps that element last. */
  lemma ShiftStep(x: Field, sorted: seq<Field>, j: int, key: KeyFn)
    requires 0 < j <= |sorted|
    requires key(sorted[j - 1]) > key(x)
    requires Insert(x, sorted, key) == Insert(x, sorted[..j], key) + sorted[j..]
    ensures Insert(x, sorted, key) == Insert(x, sorted[..j - 1], key) + sorted[j - 1..]
  {
    assert sorted[..j] == sorted[..j - 1] + [sorted[j - 1]];
    InsertStep(x, sorted[..j - 1], sorted[j - 1], key);
    assert sorted[j - 1..] == [sorted[j - 1]] + sorted[j..];
  }

  /** findOperationFields: sort in place, then put each field into the insertion-ordered map.
      The sort fails at a field whose order does not resolve. */
  method FindOperationFields(found: seq<Field>) returns (r: Result<seq<Field>>)
    ensures r.Err? <==> exists i :: 0 <= i < |found| && !Keyed(found[i])
    ensures r.Err? ==> exists i :: 0 <= i < |found| && GetOperationOrder(found[i]) == Err(r.error)
    ensures r.Ok? ==> r.value == OrderedOperationMap(found)
  {
    var failure := FirstOrderError(found);
    if failure.Some? {
      return Err(failure.value);
    }
    var a := new Field[|found|](i requires 0 <= i < |found| => found[i]);
    assert a[..] == found;
    SortInPlace(a, Key);
    var ordered := PutAll(a[..]);
    return Ok(ordered);
  }

  /** The insertion-ordered map filled from `sorted`: putting a field already present keeps
      its first position. */
  method PutAll(sorted: seq<Field>) returns (ordered: seq<Field>)
    ensures ordered == Dedup(sorted)
  {
    ordered := [];
    for i := 0 to |sorted|
      invariant ordered == Dedup(sorted[..i])
    {
      assert sorted[..i + 1][..i] == sorted[..i];
      if sorted[i] !in ordered {
        ordered := ordered + [sorted[i]];
      }
    }
    assert sorted[..|sorted|] == sorted;
  }

  /** The ordered map is sorted by order key. */
  lemma OrderedMapSorted(found: seq<Field>)
    ensures SortedBy(OrderedOperationMap(found), Key)
  {
    StableSortSorted(found, Key);
    DedupSorted(StableSort(found, Key), Key);
  }

  /** Fields of equal key keep their discovery order, and none of them is dropped unless it
      is the same field found again. */
  lemma OrderedMapStable(found: seq<Field>, k: int)
    ensures WithKey(OrderedOperationMap(found), Key, k) == Dedup(WithKey(found, Key, k))
  {
    DedupFilter(StableSort(found, Key), HasKey(Key, k));
    StableSortStable(found, Key, k);
  }

  /** Without repeated fields the ordered map is a permutation of the discovered fields. */
  lemma OrderedMapPermutation(found: seq<Field>)
    requires Distinct(found)
    ensures multiset(OrderedOperationMap(found)) == multiset(found)
  {
    StableSortDistinct(found, Key);
    StableSortPermutation(found, Key);
    DedupOfDistinct(StableSort(found, Key));
  }

  /** An operation field of class `c` without an explicit order, named `prefix` followed by
      the digit `d`. */
  function NumberedOperation(c: ClassId, prefix: string, d: nat): Field
    requires d < 10
  {
    Field(c, prefix + [DigitChar(d)], false, "", ["db"], -1)
  }

  lemma NumberedOperationKey(c: ClassId, prefix: string, d: nat)
    requires !EndsWithDigit(prefix)
    requires d < 10
    ensures Key(NumberedOperation(c, prefix, d)) == d
  {
    var digits := [DigitChar(d)];
    LastIntOfSplit(prefix, digits);
    assert digits[..0] == [];
    assert DigitsValue(digits) == d;
  }

  lemma StableSortSnoc(s: seq<Field>, x: Field, key: KeyFn)
    ensures StableSort(s + [x], key) == Insert(x, StableSort(s, key), key)
  {
    var s' := s + [x];
    assert s'[..|s'| - 1] == s && s'[|s'| - 1] == x;
  }

  lemma InsertAtEnd(x: Field, s: seq<Field>, key: KeyFn)
    requires s == [] || key(s[|s| - 1]) <= key(x)
    ensures Insert(x, s, key) == s + [x]
  {
  }

  lemma SortTwo(a: Field, c: Field, key: KeyFn)
    requires key(a) < key(c)
    ensures StableSort([c, a], key) == [a, c]
  {
    StableSortSnoc([], c, key);
    InsertAtEnd(c, [], key);
    assert [] + [c] == [c];
    StableSortSnoc([c], a, key);
    InsertStep(a, [], c, key);
    InsertAtEnd(a, [], key);
    assert [] + [a] == [a];
    assert [c] + [a] == [c, a];
  }

  lemma InsertIntoPair(x: Field, a: Field, c: Field, key: KeyFn)
    requires key(a) <= key(x) < key(c)
    ensures Insert(x, [a, c], key) == [a, x, c]
  {
    assert [a, c] == [a] + [c];
    InsertStep(x, [a], c, key);
    InsertAtEnd(x, [a], key);
    assert [a] + [x] + [c] == [a, x, c];
  }

  lemma SortThreeStep(a: Field, b: Field, c: Field, key: KeyFn)
    ensures StableSort([c, a, b], key) == Insert(b, StableSort([c, a], key), key)
  {
    assert [c, a] + [b] == [c, a, b];
    StableSortSnoc([c, a], b, key);
  }

  /** Sorting three fields discovered with the largest key first and the smallest second. */
  lemma SortThree(a: Field, b: Field, c: Field, key: KeyFn)
    requires key(a) < key(b) < key(c)
    ensures StableSort([c, a, b], key) == [a, b, c]
  {
    SortThreeStep(a, b, c, key);
    SortTwo(a, c, key);
    InsertIntoPair(b, a, c, key);
  }

  lemma OrderedOperationMapOfThree(a: Field, b: Field, c: Field)
    requires Keyed(a) && Keyed(b) && Keyed(c) && Key(a) < Key(b) < Key(c)
    ensures SortOperations([c, a, b]) == Ok([a, b, c])
    ensures OrderedOperationMap([c, a, b]) == [a, b, c]
  {
    var found := [c, a, b];
    assert forall i | 0 <= i < |found| :: Keyed(found[i]);
    SortThree(a, b, c, Key);
    DedupOfDistinct([a, b, c]);
  }

  /** Operations ordered by the numbers their names end with: with no explicit order, fields
      named like "op3", "op1" and "op2", discovered in that order, come out as "op1", "op2",
      "op3". */
  lemma TrailingDigitsOrderOperations(c: ClassId, prefix: string)
    requires !EndsWithDigit(prefix)
    ensures var op1, op2, op3 := NumberedOperation(c, prefix, 1), NumberedOperation(c, prefix, 2),
                                 NumberedOperation(c, prefix, 3);
            SortOperations([op3, op1, op2]) == Ok([op1, op2, op3])
            && OrderedOperationMap([op3, op1, op2]) == [op1, op2, op3]
  {
    NumberedOperationKey(c, prefix, 1);
    NumberedOperationKey(c, prefix, 2);
    NumberedOperationKey(c, prefix, 3);
    OrderedOperationMapOfThree(NumberedOperation(c, prefix, 1), NumberedOperation(c, prefix, 2),
                               NumberedOperation(c, prefix, 3));
  }
}

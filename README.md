# junit5-dbsetup-annotations: a Dafny model of DbSetupExtension

This project models the JUnit 5 extension `DbSetupExtension`. The extension reads markers on
the fields of a test class and, before each test, runs DbSetup operations against data sources.

- **Introspection (`postProcessTestInstance`).** The extension scans the test class and its
  enclosing classes for three kinds of marked fields:
  - resource fields (`@DbSetupSource`, each with a name);
  - binder-configuration fields (`@DbSetupBinderConfiguration`, each naming the resources it
    applies to);
  - operation fields (`@DbSetupOperation`, each naming its resources and having an optional order).
- **Ordering.** Operations are stably sorted by their order. A missing order is taken from the
  digits the field name ends with.
- **Validation.** Every referenced resource must be declared.
- **Holders.** The extension builds one holder per resource. A holder has the resource field,
  the operations that target the resource, and at most one binder configuration.
- **Launch (`beforeEach`).** Each holder reads its fields on the test instance (walking out
  through enclosing instances for fields of outer classes). It then calls its tracker's
  `launchIfNecessary`, followed by `skipNextLaunch` when the test method asks for it.

Modules, in dependency order:

- `Errors`:
  - `Option`, `Result` and `Outcome`;
  - the extension's errors and their messages.
- `Fields`:
  - a reflected field;
  - the chain of enclosing test classes;
  - the marker scan `findAnnotatedFieldsInHierarchy`.
- `Order`: `getLastInt` and `getOperationOrder`.
- `Seqs`: list filtering, and de-duplication as an insertion-ordered map performs it.
- `Sorting`:
  - the stable sort and `findOperationFields`;
  - an in-place insertion sort over an `array`.
- `Collect`: `findDataSourceFields`, `findBinderConfigurationFields` and `validateDataSourceExists`.
- `Instances`: `matchElementDeclaringClass` and `getFieldValue`.
- `Bindings`:
  - the holder-building loop;
  - the whole introspection, as one predicate `Introspected` that states its result and its
    error for every input.
- `Launch`:
  - the tracker, as a class recording the calls it receives;
  - `DbSetupHolder` and its `launch`, `beforeEach`, and `postProcessTestInstance`.

How the Java state is modelled:

- A `HashMap<String, Field>` becomes a `map`.
- A `HashMap<Field, String[]>` becomes a `map`, or the set of its keys, since the value is
  always the field's own marker attribute.
- The `LinkedHashMap<Field, String[]>` of ordered operations becomes a sequence without repeats.
- Iteration over a hash map or set has no fixed order, so the model picks any element (`:|`).
  Every contract holds whatever order is chosen.

## Model

| member | source | states |
|---|---|---|
| Errors.MessageNamesResource | src/main/java/com/github/isengrim613/junit5/DbSetupExtension.java:52 | the message of a missing-resource, duplicate-resource or duplicate-binder error ends with the resource name |
| Fields.HierarchyIsOutermostFirst | src/main/java/com/github/isengrim613/junit5/DbSetupExtension.java:218-227 | the hierarchy scan is the concatenation of the per-class scans of the enclosing classes, outermost first |
| Fields.HierarchyMembers | src/main/java/com/github/isengrim613/junit5/DbSetupExtension.java:218-227 | a field is found iff some class of the enclosing chain yields it (both directions) |
| Order.LastInt | src/main/java/com/github/isengrim613/junit5/DbSetupExtension.java:278-294 | -1 exactly when the last character is not a digit; otherwise the parse of the maximal trailing digit run; the empty name fails to parse |
| Order.LastIntOfSplit | src/main/java/com/github/isengrim613/junit5/DbSetupExtension.java:278-294 | for a name made of a non-digit-ending prefix and a digit run, the run is exactly the trailing digits and is what gets parsed |
| Order.LastIntOfNumeral | src/main/java/com/github/isengrim613/junit5/DbSetupExtension.java:278-294 | a name ending with the numeral of n (n fits an int) after a non-digit yields n: the round trip from a number to a name and back |
| Order.GetLastInt | src/main/java/com/github/isengrim613/junit5/DbSetupExtension.java:278-294 | the backwards loop computes LastInt for every name |
| Order.GetOperationOrder | src/main/java/com/github/isengrim613/junit5/DbSetupExtension.java:259-276 | any success is non-negative; a non-negative order is returned unchanged; otherwise the trailing number, and the no-implicit-order error for a non-empty name without trailing digits |
| Sorting.StableSortPermutation | src/main/java/com/github/isengrim613/junit5/DbSetupExtension.java:175 | the sort is a permutation of its input |
| Sorting.StableSortSorted | src/main/java/com/github/isengrim613/junit5/DbSetupExtension.java:175 | the sort's result is non-decreasing in the key |
| Sorting.StableSortStable | src/main/java/com/github/isengrim613/junit5/DbSetupExtension.java:175 | for every key, the fields of that key appear in the same order before and after the sort |
| Sorting.FirstOrderError | src/main/java/com/github/isengrim613/junit5/DbSetupExtension.java:175 | no error iff every field's order resolves; an error comes from some field whose order does not resolve |
| Sorting.SortOperations | src/main/java/com/github/isengrim613/junit5/DbSetupExtension.java:174-175 | fails iff some field's order does not resolve, with that field's error; on success a sorted permutation of the fields |
| Sorting.LoneUnorderedOperationIsAccepted | src/main/java/com/github/isengrim613/junit5/DbSetupExtension.java:175 | a single unordered field passes the sort as written, while the intended sort rejects it |
| Sorting.SetupFieldIsUnordered | src/main/java/com/github/isengrim613/junit5/DbSetupExtension.java:263-269 | a field named "setup" without explicit order has no order |
| Sorting.SortInPlace | src/main/java/com/github/isengrim613/junit5/DbSetupExtension.java:175 | sorting the array in place leaves it holding the stable sort of its old contents |
| Sorting.InsertInPlace | src/main/java/com/github/isengrim613/junit5/DbSetupExtension.java:175 | one insertion step: the prefix up to i becomes the old element inserted into the sorted prefix, the rest untouched |
| Sorting.PutAll | src/main/java/com/github/isengrim613/junit5/DbSetupExtension.java:178-187 | filling the insertion-ordered map keeps each field's first position and drops repeats |
| Sorting.FindOperationFields | src/main/java/com/github/isengrim613/junit5/DbSetupExtension.java:166-190 | with the intended sort (see Findings): fails iff some field's order does not resolve, with such a field's error; otherwise the ordered operation map of the discovered fields |
| Sorting.OrderedMapSorted | src/main/java/com/github/isengrim613/junit5/DbSetupExtension.java:174-189 | the ordered operation map is non-decreasing in operation order |
| Sorting.OrderedMapStable | src/main/java/com/github/isengrim613/junit5/DbSetupExtension.java:174-189 | the fields of one order keep their discovery order, and none is dropped unless it is the same field found again |
| Sorting.OrderedMapPermutation | src/main/java/com/github/isengrim613/junit5/DbSetupExtension.java:174-189 | without repeated fields the ordered map is a permutation of the discovered fields |
| Sorting.TrailingDigitsOrderOperations | src/main/java/com/github/isengrim613/junit5/DbSetupExtension.java:174-189 | unordered fields named prefix3, prefix1, prefix2, discovered in that order, come out as prefix1, prefix2, prefix3 |
| Collect.FindDataSourceFields | src/main/java/com/github/isengrim613/junit5/DbSetupExtension.java:119-141 | no resource field: the no-resource error; succeeds iff non-empty with distinct names; on success the map of names to fields; otherwise the duplicate error names the first repeated name |
| Collect.SourceMapKeys | src/main/java/com/github/isengrim613/junit5/DbSetupExtension.java:127-140 | the keys of the resource map are exactly the declared names |
| Collect.SourceMapValues | src/main/java/com/github/isengrim613/junit5/DbSetupExtension.java:127-140 | with distinct names every resource field is stored under its own name |
| Collect.FindBinderConfigurationFields | src/main/java/com/github/isengrim613/junit5/DbSetupExtension.java:143-164 | the loop builds the binder map |
| Collect.ValidateDataSourceExists | src/main/java/com/github/isengrim613/junit5/DbSetupExtension.java:44-55 | passes iff every referenced name is a declared resource; a failure names a referenced, undeclared resource |
| Instances.FirstAssignable | src/main/java/com/github/isengrim613/junit5/DbSetupExtension.java:231-238 | the first position in the chain assignable to the class, with none before it; none exactly when no position is |
| Instances.MatchElementDeclaringClass | src/main/java/com/github/isengrim613/junit5/DbSetupExtension.java:229-241 | the walk succeeds iff some enclosing instance is assignable, returning the first; otherwise the no-outer-instance error |
| Instances.ReadField | src/main/java/com/github/isengrim613/junit5/DbSetupExtension.java:208-216 | a static field is read without a receiver; an instance field succeeds iff some instance of the chain is assignable, and is read on the first one |
| Instances.GetFieldValue | src/main/java/com/github/isengrim613/junit5/DbSetupExtension.java:208-216 | the method reads exactly ReadField's value |
| Instances.NestedFieldIsReadOnOuterInstance | src/main/java/com/github/isengrim613/junit5/DbSetupExtension.java:229-241 | a field of the outer class is read on the enclosing instance of a nested-class instance |
| Instances.UnrelatedFieldHasNoReceiver | src/main/java/com/github/isengrim613/junit5/DbSetupExtension.java:229-241 | a field of a class not on the chain fails with the no-outer-instance error |
| Bindings.CollectOperations | src/main/java/com/github/isengrim613/junit5/DbSetupExtension.java:79-83 | the inner loop yields the operation fields targeting the resource, in ordered-map order |
| Bindings.TargetingMembers | src/main/java/com/github/isengrim613/junit5/DbSetupExtension.java:79-83 | a field is among a resource's operations iff it is an operation field that targets the resource |
| Bindings.HolderOperationsSorted | src/main/java/com/github/isengrim613/junit5/DbSetupExtension.java:79-83 | a holder's operations are non-decreasing in order |
| Bindings.HolderOperationsStable | src/main/java/com/github/isengrim613/junit5/DbSetupExtension.java:79-83 | within one order, a holder's operations are the discovered ones targeting it, in discovery order, without repeats |
| Bindings.ChooseBinder | src/main/java/com/github/isengrim613/junit5/DbSetupExtension.java:85-95 | fails iff two or more binder configurations target the resource, naming it; otherwise none when none targets it and the only one when one does |
| Bindings.BuildBindings | src/main/java/com/github/isengrim613/junit5/DbSetupExtension.java:75-99 | succeeds iff no resource has two binder configurations; one binding per resource, each built from that resource's declarations; an error names an offending resource |
| Bindings.OrderedMapElements | src/main/java/com/github/isengrim613/junit5/DbSetupExtension.java:66-72 | the ordered operation map holds exactly the discovered operation fields, so validating it validates them all |
| Bindings.Introspect | src/main/java/com/github/isengrim613/junit5/DbSetupExtension.java:63-99 | with the intended sort (see Findings): succeeds iff every check passes, with the bindings; otherwise the error of the first failing check, in source order |
| Launch.ReadAll | src/main/java/com/github/isengrim613/junit5/DbSetupExtension.java:318-321 | reading a list of fields succeeds iff each read does, giving the values in list order |
| Launch.LaunchCalls | src/main/java/com/github/isengrim613/junit5/DbSetupExtension.java:309-335 | no operations: no call; otherwise exactly one launch whose setup holds the resource value, the operation values in holder order and the binder configuration, each as ReadField reads it on the enclosing-instance chain (the default binder when none is declared), then a skip iff the test asks for it; fails iff some read fails |
| Launch.DbSetupHolder.constructor | src/main/java/com/github/isengrim613/junit5/DbSetupExtension.java:302-307 | a holder keeps its binding and gets a fresh tracker that has seen no call |
| Launch.DbSetupHolder.Launch | src/main/java/com/github/isengrim613/junit5/DbSetupExtension.java:309-335 | the tracker receives exactly LaunchCalls; a failing read fails the launch and leaves the tracker untouched |
| Launch.ReadAllOk | src/main/java/com/github/isengrim613/junit5/DbSetupExtension.java:318-321 | reading the fields one by one gives ReadAll's values |
| Launch.FirstFailingLaunch | src/main/java/com/github/isengrim613/junit5/DbSetupExtension.java:114-116 | the position of the first holder whose launch fails, every one before it succeeding |
| Launch.BeforeEach | src/main/java/com/github/isengrim613/junit5/DbSetupExtension.java:110-117 | holders launch in list order up to the first failure, which is reported; the failing holder and those after it are untouched |
| Launch.LaunchAt | src/main/java/com/github/isengrim613/junit5/DbSetupExtension.java:115 | one holder's launch changes no other holder's tracker |
| Launch.NewHolders | src/main/java/com/github/isengrim613/junit5/DbSetupExtension.java:75-98 | one holder per binding, in order, each with its own fresh tracker that has seen no call |
| Launch.PostProcessTestInstance | src/main/java/com/github/isengrim613/junit5/DbSetupExtension.java:63-102 | the holders carry the introspected bindings, or the introspection's error is reported; trackers are distinct and fresh |

## Left out

- checkField (lines 201-205): the type check of a field against DataSource, BinderConfiguration or Operation belongs to Java's type system. The model has no field types.
- makeAccessible: reflection access is left out.
- The JUnit extension context and its Store: the holders are returned by PostProcessTestInstance and passed explicitly to BeforeEach.
- The test context supplies the test instance and whether the skip-next marker is present.
- Logging is left out.
- getOuterInstance (lines 243-257) finds the enclosing instance by the `this$` field name. The model gives each Instance its enclosing instance directly.
- Class.isAssignableFrom is a parameter (`Assignability`).
- The marker scan of one class (findAnnotatedFields, top-down) is a parameter (`Scanner`).
- Character.isDigit also accepts non-ASCII digits. The model knows the ASCII digits only.
- Sorting.FindOperationFields, Bindings.Introspect: they use the intended sort of the Findings row, so a test class whose only operation field has no resolvable order is rejected, while the source accepts it because List.sort never calls the comparator on a single element. Sorting.SortOperationsAsWritten and Sorting.LoneUnorderedOperationIsAccepted hold the behaviour as written.
- Sorting.SortOperations: List.sort is TimSort, and in the model it is an insertion sort. A stable sort by a key has only one possible result, so the sorted list is the same. When several fields have no order, which of their errors TimSort throws first depends on its comparison order, so the model only promises an error from some such field.
- Iteration order of HashMap and HashSet is left open (chosen by `:|`). So which undeclared name, or which resource with two binder configurations, is reported, and the order of the holders, are not fixed.
- The DbSetup library is not part of this model:
  - DataSourceDestination, DbSetup and sequenceOf are symbolic values;
  - DbSetupTracker records the calls it receives rather than deciding whether to run the setup;
  - field values are symbolic: a field and the object it is read on.
- Launch.DbSetupHolder.Launch: the failure of field.get itself (an inaccessible or wrongly typed field) is not modelled. Only the failure to find an enclosing instance is.
- Bindings.Binding also records the resource name it was built for, which the Java holder does not keep. The name is used to state which entry of the resource map a binding comes from.
- Errors.Message: the NumberFormatException text belongs to the JDK and is approximated.
- The no-implicit-order error does not identify the offending field, because the source's message does not.

## Findings

| source | as written | input that shows it | evidently intended | confidence | as-written member | corrected member |
|---|---|---|---|---|---|---|
| src/main/java/com/github/isengrim613/junit5/DbSetupExtension.java:175 | the order of each operation field is computed only inside the sort's comparator, and List.sort returns without comparing when the list has fewer than two elements | a test class with a single operation field named `setup` with no order: it is accepted, and the introspection does not fail | every operation with no explicit order and no trailing digits in its name is rejected at introspection | medium; not executed | Sorting.LoneUnorderedOperationIsAccepted | Sorting.SortOperations (used by Sorting.FindOperationFields and Bindings.Introspect) |

# GenericComparator, modelled in Dafny

`com.devopsdemo.utilities.GenericComparator` is a reflective
`java.util.Comparator`. It orders two objects, or the values that a named
getter returns on each of them, in ascending or descending order. A null is
placed at a fixed end. The comparison is chosen by the name of the value's
class: Integer, Long, String, LocalDate, Float, Double or Boolean. Any other
class gives the sentinel LESSER (−1).

The comparator's two fields (`targetMethod`, `sortAscending`) are set once by
a constructor and never changed. So the model treats a comparator as an
immutable value, `GenericComparator.Config`, and writes every method as a
function of it:

- `wrappers.dfy`: `Option`, which stands for a Java reference that may be null, and `Result`.
- `java_values.dfy` (module `JavaValues`): the values the comparator can
  meet, and the JDK `compareTo` of each supported class. It also holds an
  independent definition of the order each class is meant to have
  (`Precedes`, `LexLess`), with proofs that the `compareTo`s follow it.
- `generic_comparator.dfy` (module `GenericComparator`): the three
  constructors, `prepareTargetMethod`, `determinePosition`,
  `findCompareMode`, `compareAlternate`, `compareActual` and `compare`.
  Reflection (`getMethod`, `invoke`, `getValue`) is a `Getter` that the
  caller supplies. It maps an object and a method name to the declared
  return type and the returned value, or to the exception thrown.
- `comparator_properties.dfy` (module `ComparatorProperties`): these lemmas
  cover the null policy and the choice of dispatch type. They cover the
  failure fallback and the comparator laws (reflexivity, antisymmetry,
  direction reversal, transitivity). They also cover the quirks and the
  worked examples.

Two consequences of the code are worth knowing:

- A null left operand gives `-1 * determinePosition()` (line 117). So in an
  ascending sort, nulls come first (`NullsFirstWhenAscending`).
- A getter whose declared return type is a primitive (`int`) has no case in
  `compareActual` (lines 175-184). Its values therefore compare as an
  unscaled LESSER (`PrimitiveReturnTypeIsUnsupported`).

## Model

| member | source | states |
|---|---|---|
| `JavaValues.TypeName` | src/main/java/com/devopsdemo/utilities/GenericComparator.java:173 | The runtime class name is one of the supported type names exactly when the object is not of some other class. |
| `JavaValues.NumericCompare` | src/main/java/com/devopsdemo/utilities/GenericComparator.java:176-177 | Integer/Long compareTo (also Float/Double on ranks): result in −1..1, negative iff x < y, zero iff equal. |
| `JavaValues.BooleanCompare` | src/main/java/com/devopsdemo/utilities/GenericComparator.java:182 | Boolean.compareTo: in −1..1, negative exactly for (false, true), zero iff equal. |
| `JavaValues.StringCompare` | src/main/java/com/devopsdemo/utilities/GenericComparator.java:178 | String.compareTo (first differing char difference, else length difference) is zero exactly for equal strings. |
| `JavaValues.DateCompare` | src/main/java/com/devopsdemo/utilities/GenericComparator.java:179 | LocalDate.compareTo (year, then month, then day difference) is zero exactly for equal dates. |
| `JavaValues.StringCompareNegativeIffLexLess` | src/main/java/com/devopsdemo/utilities/GenericComparator.java:178 | String.compareTo is negative exactly when the first string precedes the second lexicographically (proper prefix or smaller char at the first difference). |
| `JavaValues.StringCompareAntisymmetric` | src/main/java/com/devopsdemo/utilities/GenericComparator.java:178 | Swapping the strings negates String.compareTo. |
| `JavaValues.StringCompareInRange` | src/main/java/com/devopsdemo/utilities/GenericComparator.java:178 | For Java-length strings the result lies in −(2^31−1)..2^31−1, so its negation is a Java int. |
| `JavaValues.LexLessTransitive` | src/main/java/com/devopsdemo/utilities/GenericComparator.java:178 | The lexicographic order the string case follows is transitive. |
| `JavaValues.NaturalCompare` | src/main/java/com/devopsdemo/utilities/GenericComparator.java:176-182 | The compareTo of the class both values share is zero exactly for equal values; for Integer, Long, Float, Double and Boolean it lies in −1..1. |
| `JavaValues.NaturalCompareOrders` | src/main/java/com/devopsdemo/utilities/GenericComparator.java:176-182 | For every supported class, compareTo is negative iff the first value precedes, zero iff the values are equal, positive iff the second precedes. |
| `JavaValues.NaturalCompareAntisymmetric` | src/main/java/com/devopsdemo/utilities/GenericComparator.java:176-182 | Every supported compareTo is antisymmetric. |
| `JavaValues.NaturalCompareInRange` | src/main/java/com/devopsdemo/utilities/GenericComparator.java:176-182 | No supported compareTo returns Integer.MIN_VALUE, so scaling by the direction sign cannot overflow. |
| `JavaValues.PrecedesIsStrictTotalOrder` | src/main/java/com/devopsdemo/utilities/GenericComparator.java:176-182 | The intended order of each supported class is irreflexive, total and transitive. |
| `GenericComparator.UpperCase` | src/main/java/com/devopsdemo/utilities/GenericComparator.java:196 | Upper-casing one char leaves no lower-case ASCII letter, changes exactly the lower-case letters, and moves them by 32. |
| `GenericComparator.PrepareTargetMethod` | src/main/java/com/devopsdemo/utilities/GenericComparator.java:192-197 | Null or empty name gives null; otherwise the result is "get", the upper-cased first char, then the rest of the name, three chars longer. |
| `GenericComparator.ComparatorWithDirection` | src/main/java/com/devopsdemo/utilities/GenericComparator.java:52-56 | No getter (direct comparison), the given direction. |
| `GenericComparator.ComparatorOnField` | src/main/java/com/devopsdemo/utilities/GenericComparator.java:77-81 | Ascending; the stored getter is `PrepareTargetMethod(sortField)`, so there is one exactly when the field name is non-empty. |
| `GenericComparator.ComparatorOnFieldWithDirection` | src/main/java/com/devopsdemo/utilities/GenericComparator.java:103-107 | The given direction; the stored getter is `PrepareTargetMethod(sortField)`, so there is one exactly when the field name is non-empty. |
| `GenericComparator.DeterminePosition` | src/main/java/com/devopsdemo/utilities/GenericComparator.java:252-254 | +1 exactly when ascending, −1 exactly when descending. |
| `GenericComparator.FindCompareMode` | src/main/java/com/devopsdemo/utilities/GenericComparator.java:240-245 | DEFAULT exactly when both values are non-null; EQUAL, LESS_THAN, GREATER_THAN exactly for null/null, null/value, value/null. |
| `GenericComparator.CompareAlternate` | src/main/java/com/devopsdemo/utilities/GenericComparator.java:153-160 | null/null gives 0; a null left value is negative iff ascending; a null right value positive iff ascending; DEFAULT gives the unscaled −1. |
| `GenericComparator.DispatchType` | src/main/java/com/devopsdemo/utilities/GenericComparator.java:171-174 | The class switched on is the given return type, unless that is java.lang.Object, in which case it is the first value's runtime class. |
| `GenericComparator.ResolveOperands` | src/main/java/com/devopsdemo/utilities/GenericComparator.java:125-134 | Without a getter: both operands and o1's class. With a getter: an exception exactly when getValue throws on o1, or returns on o1 and throws on o2 (o1's exception if it threw, else o2's); otherwise both returned values and o1's declared return type. |
| `GenericComparator.CompareActual` | src/main/java/com/devopsdemo/utilities/GenericComparator.java:170-185 | For a supported dispatch class, both values are of it and the result is their natural compareTo times the direction sign. For any other class name, the result is −1. |
| `GenericComparator.Compare` | src/main/java/com/devopsdemo/utilities/GenericComparator.java:112-146 | Null operands: 0, −sign, +sign. An exception is logged exactly when the getter throws on a non-null operand, and then the result is −1. |
| `ComparatorProperties.OperandNullRuleIsCompareAlternate` | src/main/java/com/devopsdemo/utilities/GenericComparator.java:113-121 | The null rule applied to the operands is exactly findCompareMode followed by compareAlternate. |
| `ComparatorProperties.NullExtractedValuesFollowOperandRule` | src/main/java/com/devopsdemo/utilities/GenericComparator.java:136-139 | When a getter returns null, compare gives what it gives with the extracted values as operands (the same null rule again). |
| `ComparatorProperties.NullsFirstWhenAscending` | src/main/java/com/devopsdemo/utilities/GenericComparator.java:116-121 | A null operand orders before a non-null one exactly when ascending; null/null is 0. |
| `ComparatorProperties.DirectModeDispatchesOnRuntimeType` | src/main/java/com/devopsdemo/utilities/GenericComparator.java:126-129 | Without a getter, the result is compareActual on the operands with the first operand's class, and no getter is consulted. |
| `ComparatorProperties.GetterModeDispatchesOnDeclaredType` | src/main/java/com/devopsdemo/utilities/GenericComparator.java:130-134 | With a getter, two non-null results are compared by the first operand's declared return type. |
| `ComparatorProperties.ObjectDeclaredTypeUsesRuntimeType` | src/main/java/com/devopsdemo/utilities/GenericComparator.java:172-174 | A declared type of java.lang.Object dispatches on the class of the first value. |
| `ComparatorProperties.PrimitiveReturnTypeIsUnsupported` | src/main/java/com/devopsdemo/utilities/GenericComparator.java:183 | A declared return type "int" gives −1 whatever the values and direction. |
| `ComparatorProperties.FailedGetterGivesLesser` | src/main/java/com/devopsdemo/utilities/GenericComparator.java:142-145 | A getter that throws on either operand gives −1 and logs that exception (the first operand's if both throw). |
| `ComparatorProperties.CompareActualFollowsNaturalOrder` | src/main/java/com/devopsdemo/utilities/GenericComparator.java:175-182 | For a supported class: negative iff the first value precedes (ascending) or follows (descending); 0 iff equal values. |
| `ComparatorProperties.CompareReflexive` | src/main/java/com/devopsdemo/utilities/GenericComparator.java:112-146 | An operand compared with itself gives 0 and logs nothing, when dispatch reaches a supported class or a null. |
| `ComparatorProperties.CompareAntisymmetric` | src/main/java/com/devopsdemo/utilities/GenericComparator.java:112-146 | Swapping the operands negates the result, for operands that reach a supported class or a null in both orders. |
| `ComparatorProperties.CompareReversedNegates` | src/main/java/com/devopsdemo/utilities/GenericComparator.java:112-146 | Flipping sortAscending negates the result, when dispatch reaches a supported class or a null. |
| `ComparatorProperties.CompareResultIsJavaInt` | src/main/java/com/devopsdemo/utilities/GenericComparator.java:112-146 | Every result lies in −(2^31−1)..2^31−1. |
| `ComparatorProperties.DirectComparatorIsTotalOrder` | src/main/java/com/devopsdemo/utilities/GenericComparator.java:112-146 | Direct comparison of nulls and values of one supported class is antisymmetric, transitive, and 0 exactly for equal operands. |
| `ComparatorProperties.UnsupportedTypeIsAlwaysLesser` | src/main/java/com/devopsdemo/utilities/GenericComparator.java:183 | Objects of an unsupported class compare as −1 in both directions, even with themselves. |
| `ComparatorProperties.PrepareTargetMethodExamples` | src/main/java/com/devopsdemo/utilities/GenericComparator.java:192-197 | "emailId" gives "getEmailId", "name" gives "getName"; empty and null give null. |
| `ComparatorProperties.PrepareTargetMethodCollisions` | src/main/java/com/devopsdemo/utilities/GenericComparator.java:196 | Two non-empty names give the same getter iff their first chars upper-case alike and the rest agree. |
| `ComparatorProperties.ConstructorsAgree` | src/main/java/com/devopsdemo/utilities/GenericComparator.java:52-107 | The field-only constructor is the two-argument one with ascending; a null or empty field is the direction-only constructor. |
| `ComparatorProperties.BooleanFalseFirst` | src/main/java/com/devopsdemo/utilities/GenericComparator.java:182 | false vs true gives −1 ascending and +1 descending. |
| `ComparatorProperties.SignedDifferences` | src/main/java/com/devopsdemo/utilities/GenericComparator.java:178-179 | "apple" vs "cherry" gives −2; "ab" vs "abcd" descending gives 2; 2020-03-15 vs 2015-03-15 gives 5. |
| `ComparatorProperties.AgeExample` | src/main/java/com/devopsdemo/utilities/GenericComparator.java:130-140 | Comparing by getAge (declared Integer) for ages 30 and 25 gives +1 ascending and −1 descending. |

## Left out

- Reflection (`getMethod`, `invoke`, `getValue`, `Class.getName`) is a foreign runtime call. It is replaced by the `Getter` parameter, a total and deterministic function. `getMethod(o1)` is therefore consulted once for both the value and the return type. A `SecurityException` from `getMethod` is not caught by the source and is not modelled.
- `LoggerStackTraceUtil.printErrorMessage` is not part of this model. It is I/O, so the exception handed to it is recorded in `Outcome.logged`.
- Float and Double: a value is its rank in the total order that `Float.compare`/`Double.compare` impose. The mapping from IEEE bits to rank (NaN, −0.0) is not modelled, and no numeric claim is made.
- `ClassCastException`: this happens when the selected case casts a value of another class. It is not caught by the source, and the model excludes it by the preconditions `NoClassCast` (of `Compare`) and `CastSucceeds` (of `CompareActual`).
- `GenericComparator.UpperCase`: `String.toUpperCase` is locale-dependent and may change the length of the string (for example "ß" becomes "SS"). The model upper-cases ASCII letters only and leaves every other char as it is.
- `JavaValues.StringCompare`: Java compares UTF-16 code units. The model compares Dafny chars (Unicode scalar values), so strings with chars outside the Basic Multilingual Plane may order differently.
- LocalDate: the day is only bounded to 1..31, and a day that does not exist in its month (February 30) is not excluded.
- `compareActual`'s `v1 != null` test: `compare` calls it only for two non-null values, so the model's `CompareActual` takes non-null values.
- `Serializable` and `serialVersionUID` carry no behaviour.

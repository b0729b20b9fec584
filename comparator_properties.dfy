/** What GenericComparator promises, and the quirks it has, stated over the
    model in generic_comparator.dfy. */
module ComparatorProperties {
  import opened Wrappers
  import opened JavaValues
  import opened GenericComparator

  /** The call ends in a supported compareTo or in the null rule: the getter
      (if any) does not throw and, when both values are non-null, the class
      dispatched on has a case in compareActual. */
  predicate DispatchesToSupportedType(c: Config, getter: Getter, o1: Option<Value>, o2: Option<Value>) {
    o1.Some? && o2.Some? ==>
      match ResolveOperands(c, getter, o1.value, o2.value)
      case Err(_) => false
      case Ok(Operands(Some(v1), Some(v2), t)) => IsSupportedType(DispatchType(t, v1))
      case Ok(_) => true
  }

  /** The flipped-direction comparator with the same getter. */
  function Reversed(c: Config): (d: Config)
    ensures d.targetMethod == c.targetMethod && d.sortAscending != c.sortAscending
  {
    c.(sortAscending := !c.sortAscending)
  }

  // -----------------------------------------------------------------------
  // Null policy

  /** The null rule compare applies to its operands is the rule
      findCompareMode and compareAlternate apply to the extracted values. */
  lemma OperandNullRuleIsCompareAlternate(c: Config, getter: Getter, o1: Option<Value>, o2: Option<Value>)
    requires o1.None? || o2.None?
    ensures Compare(c, getter, o1, o2) ==
      Outcome(CompareAlternate(c, FindCompareMode(o1, o2)), None)
  {
  }

  /** When an extracted value is null, compare gives what it would give if the
      extracted values themselves were its operands. */
  lemma NullExtractedValuesFollowOperandRule(c: Config, getter: Getter, o1: Value, o2: Value)
    requires c.targetMethod.Some?
    requires getter(o1, c.targetMethod.value).Returned?
    requires getter(o2, c.targetMethod.value).Returned?
    requires getter(o1, c.targetMethod.value).result.None? ||
             getter(o2, c.targetMethod.value).result.None?
    ensures NoClassCast(c, getter, Some(o1), Some(o2))
    ensures Compare(c, getter, Some(o1), Some(o2)) ==
      Compare(c, getter, getter(o1, c.targetMethod.value).result, getter(o2, c.targetMethod.value).result)
  {
  }

  /** Ascending, null sorts before every non-null object; descending, after. */
  lemma NullsFirstWhenAscending(c: Config, getter: Getter, o: Value)
    ensures Compare(c, getter, None, Some(o)).result < 0 <==> c.sortAscending
    ensures Compare(c, getter, Some(o), None).result > 0 <==> c.sortAscending
    ensures Compare(c, getter, None, None).result == 0
  {
  }

  // -----------------------------------------------------------------------
  // Choice of the dispatch type

  /** Without a getter, the operands are compared by the class of the first,
      and the getter is never consulted. */
  lemma DirectModeDispatchesOnRuntimeType(c: Config, getter: Getter, other: Getter, v1: Value, v2: Value)
    requires c.targetMethod.None?
    requires CastSucceeds(v1, v2, TypeName(v1))
    ensures NoClassCast(c, getter, Some(v1), Some(v2)) && NoClassCast(c, other, Some(v1), Some(v2))
    ensures Compare(c, getter, Some(v1), Some(v2)) ==
      Outcome(CompareActual(c, v1, v2, TypeName(v1)), None)
    ensures Compare(c, getter, Some(v1), Some(v2)) == Compare(c, other, Some(v1), Some(v2))
  {
  }

  /** With a getter, two non-null results are compared by the return type
      declared by the first operand's getter; the second's is ignored. */
  lemma GetterModeDispatchesOnDeclaredType(c: Config, getter: Getter, o1: Value, o2: Value,
                                           t1: string, t2: string, v1: Value, v2: Value)
    requires c.targetMethod.Some?
    requires getter(o1, c.targetMethod.value) == Returned(t1, Some(v1))
    requires getter(o2, c.targetMethod.value) == Returned(t2, Some(v2))
    requires CastSucceeds(v1, v2, t1)
    ensures NoClassCast(c, getter, Some(o1), Some(o2))
    ensures Compare(c, getter, Some(o1), Some(o2)) == Outcome(CompareActual(c, v1, v2, t1), None)
  {
  }

  /** A declared return type of java.lang.Object falls back to the class of
      the first value. */
  lemma ObjectDeclaredTypeUsesRuntimeType(c: Config, v1: Value, v2: Value)
    requires CastSucceeds(v1, v2, DATATYPE_OBJECT)
    ensures CastSucceeds(v1, v2, TypeName(v1))
    ensures CompareActual(c, v1, v2, DATATYPE_OBJECT) == CompareActual(c, v1, v2, TypeName(v1))
  {
  }

  /** A getter declared to return a primitive (getReturnType().getName() is
      "int") has no case in compareActual: the result is LESSER whatever the
      values and the direction. */
  lemma PrimitiveReturnTypeIsUnsupported(c: Config, x: Int32, y: Int32)
    ensures CastSucceeds(IntegerV(x), IntegerV(y), "int")
    ensures CompareActual(c, IntegerV(x), IntegerV(y), "int") == LESSER
  {
  }

  // -----------------------------------------------------------------------
  // Failure fallback

  /** A getter that cannot be found or invoked on either operand makes compare
      return LESSER and log that exception; the first operand is tried first. */
  lemma FailedGetterGivesLesser(c: Config, getter: Getter, o1: Value, o2: Value)
    requires c.targetMethod.Some?
    requires getter(o1, c.targetMethod.value).Threw? || getter(o2, c.targetMethod.value).Threw?
    ensures NoClassCast(c, getter, Some(o1), Some(o2))
    ensures Compare(c, getter, Some(o1), Some(o2)).result == LESSER
    ensures Compare(c, getter, Some(o1), Some(o2)).logged ==
      Some(if getter(o1, c.targetMethod.value).Threw? then getter(o1, c.targetMethod.value).failure
           else getter(o2, c.targetMethod.value).failure)
  {
  }

  // -----------------------------------------------------------------------
  // Supported types: the natural order, scaled by the direction sign

  /** For a supported dispatch type the sign of the result says which value
      precedes the other in the chosen direction, and 0 means equal values. */
  lemma {:induction false} CompareActualFollowsNaturalOrder(c: Config, v1: Value, v2: Value, returnType: string)
    requires CastSucceeds(v1, v2, returnType)
    requires IsSupportedType(DispatchType(returnType, v1))
    ensures SameSupportedKind(v1, v2)
    ensures CompareActual(c, v1, v2, returnType) < 0 <==>
      (if c.sortAscending then Precedes(v1, v2) else Precedes(v2, v1))
    ensures CompareActual(c, v1, v2, returnType) == 0 <==> v1 == v2
    ensures CompareActual(c, v1, v2, returnType) > 0 <==>
      (if c.sortAscending then Precedes(v2, v1) else Precedes(v1, v2))
  {
    NaturalCompareOrders(v1, v2);
  }

  /** A value compared with itself gives 0, in either direction. */
  lemma {:induction false} CompareReflexive(c: Config, getter: Getter, o: Value)
    requires NoClassCast(c, getter, Some(o), Some(o))
    requires DispatchesToSupportedType(c, getter, Some(o), Some(o))
    ensures Compare(c, getter, Some(o), Some(o)) == Outcome(EQUAL, None)
  {
    match ResolveOperands(c, getter, o, o)
    case Ok(Operands(Some(v1), Some(v2), t)) =>
      CompareActualFollowsNaturalOrder(c, v1, v2, t);
    case _ =>
  }

  /** Swapping the operands negates the result. */
  lemma {:induction false} CompareAntisymmetric(c: Config, getter: Getter, o1: Option<Value>, o2: Option<Value>)
    requires NoClassCast(c, getter, o1, o2) && NoClassCast(c, getter, o2, o1)
    requires DispatchesToSupportedType(c, getter, o1, o2) && DispatchesToSupportedType(c, getter, o2, o1)
    ensures Compare(c, getter, o1, o2).result == -Compare(c, getter, o2, o1).result
  {
    if o1.Some? && o2.Some? {
      match ResolveOperands(c, getter, o1.value, o2.value)
      case Ok(Operands(Some(v1), Some(v2), t)) =>
        var t' := ResolveOperands(c, getter, o2.value, o1.value).value.returnType;
        assert ResolveOperands(c, getter, o2.value, o1.value) == Ok(Operands(Some(v2), Some(v1), t'));
        assert CompareActual(c, v1, v2, t) == NaturalCompare(v1, v2) * DeterminePosition(c);
        assert CompareActual(c, v2, v1, t') == NaturalCompare(v2, v1) * DeterminePosition(c);
        NaturalCompareAntisymmetric(v1, v2);
      case _ =>
    }
  }

  /** Flipping sortAscending negates the result. */
  lemma CompareReversedNegates(c: Config, getter: Getter, o1: Option<Value>, o2: Option<Value>)
    requires NoClassCast(c, getter, o1, o2)
    requires DispatchesToSupportedType(c, getter, o1, o2)
    ensures NoClassCast(Reversed(c), getter, o1, o2)
    ensures Compare(Reversed(c), getter, o1, o2).result == -Compare(c, getter, o1, o2).result
  {
  }

  /** The results are Java ints and never Integer.MIN_VALUE, so the
      multiplication by the direction sign never overflows. */
  lemma {:induction false} CompareResultIsJavaInt(c: Config, getter: Getter, o1: Option<Value>, o2: Option<Value>)
    requires NoClassCast(c, getter, o1, o2)
    ensures -0x7fff_ffff <= Compare(c, getter, o1, o2).result <= 0x7fff_ffff
  {
    if o1.Some? && o2.Some? {
      match ResolveOperands(c, getter, o1.value, o2.value)
      case Ok(Operands(Some(v1), Some(v2), t)) =>
        if IsSupportedType(DispatchType(t, v1)) {
          NaturalCompareInRange(v1, v2);
        }
      case _ =>
    }
  }

  // -----------------------------------------------------------------------
  // Direct comparison of same-class values is a total order with nulls at one end

  /** Operands all null or of one supported class. */
  predicate AllOfKind(k: string, o: Option<Value>) {
    o.Some? ==> TypeName(o.value) == k
  }

  /** A comparator without a getter, on nulls and values of one supported
      class, meets the java.util.Comparator contract: antisymmetric,
      transitive, and 0 exactly for equal operands. */
  lemma {:induction false} DirectComparatorIsTotalOrder(c: Config, getter: Getter, k: string,
                                                         p: Option<Value>, q: Option<Value>, r: Option<Value>)
    requires c.targetMethod.None? && IsSupportedType(k)
    requires AllOfKind(k, p) && AllOfKind(k, q) && AllOfKind(k, r)
    ensures NoClassCast(c, getter, p, q) && NoClassCast(c, getter, q, p)
    ensures NoClassCast(c, getter, q, r) && NoClassCast(c, getter, p, r)
    ensures Compare(c, getter, p, q).result == -Compare(c, getter, q, p).result
    ensures Compare(c, getter, p, q).result == 0 <==> p == q
    ensures Compare(c, getter, p, q).result < 0 && Compare(c, getter, q, r).result < 0 ==>
            Compare(c, getter, p, r).result < 0
  {
    CompareAntisymmetric(c, getter, p, q);
    if p.Some? && q.Some? {
      CompareActualFollowsNaturalOrder(c, p.value, q.value, TypeName(p.value));
    }
    if p.Some? && q.Some? && r.Some? {
      CompareActualFollowsNaturalOrder(c, q.value, r.value, TypeName(q.value));
      CompareActualFollowsNaturalOrder(c, p.value, r.value, TypeName(p.value));
      PrecedesIsStrictTotalOrder(p.value, q.value, r.value);
      PrecedesIsStrictTotalOrder(r.value, q.value, p.value);
    }
  }

  // -----------------------------------------------------------------------
  // Quirks of unsupported types

  /** Two objects of a class compareActual has no case for compare as LESSER
      whatever the direction, even an object with itself, so compare(x, y)
      and compare(y, x) are both negative. */
  lemma UnsupportedTypeIsAlwaysLesser(c: Config, getter: Getter, x: Value, y: Value)
    requires c.targetMethod.None? && x.ObjectV?
    ensures NoClassCast(c, getter, Some(x), Some(y)) && NoClassCast(Reversed(c), getter, Some(x), Some(y))
    ensures Compare(c, getter, Some(x), Some(y)).result == LESSER
    ensures Compare(Reversed(c), getter, Some(x), Some(y)).result == LESSER
    ensures Compare(c, getter, Some(x), Some(x)).result == LESSER
  {
  }

  // -----------------------------------------------------------------------
  // Accessor-name synthesis and the constructors

  lemma PrepareTargetMethodExamples()
    ensures PrepareTargetMethod(Some("emailId")) == Some("getEmailId")
    ensures PrepareTargetMethod(Some("name")) == Some("getName")
    ensures PrepareTargetMethod(Some("")) == None
    ensures PrepareTargetMethod(None) == None
  {
    assert UpperCase('e') == 'E' && UpperCase('n') == 'N';
    assert "emailId"[1..] == "mailId" && "name"[1..] == "ame";
    assert "get" + ['E'] + "mailId" == "getEmailId";
    assert "get" + ['N'] + "ame" == "getName";
  }

  /** Two non-empty field names give the same getter exactly when their first
      chars upper-case alike and the rest agree ("name" and "Name" both give
      "getName"). */
  lemma PrepareTargetMethodCollisions(a: string, b: string)
    requires |a| > 0 && |b| > 0
    ensures PrepareTargetMethod(Some(a)) == PrepareTargetMethod(Some(b)) <==>
      (UpperCase(a[0]) == UpperCase(b[0]) && a[1..] == b[1..])
  {
  }

  /** The three constructors agree: the field-only one is ascending, and a null
      or empty field name gives direct comparison. */
  lemma ConstructorsAgree(sortField: Option<string>, sortAscending: bool)
    ensures ComparatorOnField(sortField) == ComparatorOnFieldWithDirection(sortField, true)
    ensures ComparatorOnFieldWithDirection(None, sortAscending) == ComparatorWithDirection(sortAscending)
    ensures ComparatorOnFieldWithDirection(Some(""), sortAscending) == ComparatorWithDirection(sortAscending)
  {
  }

  // -----------------------------------------------------------------------
  // Worked examples

  /** Booleans: false before true ascending. */
  lemma BooleanFalseFirst(getter: Getter)
    ensures Compare(ComparatorWithDirection(true), getter, Some(BooleanV(false)), Some(BooleanV(true))).result == -1
    ensures Compare(ComparatorWithDirection(false), getter, Some(BooleanV(false)), Some(BooleanV(true))).result == 1
  {
  }

  /** String and LocalDate results are signed differences, not just -1/0/1. */
  lemma SignedDifferences(getter: Getter)
    ensures Compare(ComparatorWithDirection(true), getter, Some(StringV("apple")), Some(StringV("cherry"))).result == -2
    ensures Compare(ComparatorWithDirection(false), getter, Some(StringV("ab")), Some(StringV("abcd"))).result == 2
    ensures Compare(ComparatorWithDirection(true), getter,
                    Some(LocalDateV(LocalDate(2020, 3, 15))), Some(LocalDateV(LocalDate(2015, 3, 15)))).result == 5
  {
  }

  /** Two people compared by getAge (declared java.lang.Integer) aged 30 and 25:
      positive ascending, negative descending. */
  lemma AgeExample(sortAscending: bool)
    ensures
      var c := ComparatorOnFieldWithDirection(Some("age"), sortAscending);
      var getter: Getter := (o: Value, m: string) =>
        if m == "getAge" && o.ObjectV? then Returned(DATATYPE_INTEGER, Some(IntegerV(if o.identity == 1 then 30 else 25)))
        else Threw(NoSuchMethodException);
      var p1, p2 := ObjectV("PersonVO", 1), ObjectV("PersonVO", 2);
      NoClassCast(c, getter, Some(p1), Some(p2)) &&
      Compare(c, getter, Some(p1), Some(p2)) == Outcome(if sortAscending then 1 else -1, None)
  {
  }
}

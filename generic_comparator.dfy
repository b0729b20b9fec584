/** GenericComparator: a java.util.Comparator that orders two objects, or the
    values a named getter returns on each, ascending or descending, with nulls
    at a fixed end and the comparison chosen by the name of the value's class.

    The comparator's two fields are set once by a constructor and never
    updated, so a comparator is the value `Config` and every instance method is
    a function of it. Reflection (getMethod, invoke, getValue) is a `Getter`
    supplied by the caller. */
module GenericComparator {
  import opened Wrappers
  import opened JavaValues

  const LESSER: int := -1
  const EQUAL: int := 0
  const GREATER: int := 1
  const METHOD_GET_PREFIX: string := "get"

  /** How the two compared values stand with respect to null. */
  datatype CompareMode = Equal | LessThan | GreaterThan | Default

  /** The comparator's state: the getter to call on each operand (absent:
      compare the operands themselves) and the sort direction. */
  datatype Config = Config(targetMethod: Option<string>, sortAscending: bool)

  // -----------------------------------------------------------------------
  // Reflection, as seen by the comparator

  /** The checked exceptions compare catches (and hands to the error logger). */
  datatype ReflectiveFailure =
    | NoSuchMethodException
    | IllegalAccessException
    | InvocationTargetException

  /** What looking up and invoking a zero-argument public method on an object
      gives: the method's declared return type (getReturnType().getName()) and
      the value it returned (None: null), or the exception thrown. */
  datatype Invocation =
    | Returned(declaredType: string, result: Option<Value>)
    | Threw(failure: ReflectiveFailure)

  /** getValue(obj) for the method named: obj.getClass().getMethod(name).invoke(obj). */
  type Getter = (Value, string) -> Invocation

  /** What compare returns, and the exception it reported to the logger, if any. */
  datatype Outcome = Outcome(result: int, logged: Option<ReflectiveFailure>)

  // -----------------------------------------------------------------------
  // Constructors

  /** An ASCII-only stand-in for String.toUpperCase on one char. */
  function UpperCase(ch: char): (u: char)
    ensures !('a' <= u <= 'z')
    ensures u == ch <==> !('a' <= ch <= 'z')
    ensures 'a' <= ch <= 'z' ==> u as int + 32 == ch as int
  {
    if 'a' <= ch <= 'z' then (ch as int - 32) as char else ch
  }

  /** The getter name for a field name: null for a null or empty name,
      otherwise "get", the first char upper-cased, and the rest unchanged. */
  function PrepareTargetMethod(name: Option<string>): (m: Option<string>)
    ensures m.None? <==> (name.None? || |name.value| == 0)
    ensures m.Some? ==>
      && |m.value| == |name.value| + |METHOD_GET_PREFIX|
      && m.value[..|METHOD_GET_PREFIX|] == METHOD_GET_PREFIX
      && m.value[|METHOD_GET_PREFIX|] == UpperCase(name.value[0])
      && m.value[|METHOD_GET_PREFIX| + 1..] == name.value[1..]
  {
    if name.None? || |name.value| == 0 then None
    else Some(METHOD_GET_PREFIX + [UpperCase(name.value[0])] + name.value[1..])
  }

  /** GenericComparator(boolean sortAscending): compares the objects themselves. */
  function ComparatorWithDirection(sortAscending: bool): (c: Config)
    ensures c.targetMethod.None? && c.sortAscending == sortAscending
  {
    Config(None, sortAscending)
  }

  /** GenericComparator(String sortField): by the field's getter, ascending. */
  function ComparatorOnField(sortField: Option<string>): (c: Config)
    ensures c.targetMethod == PrepareTargetMethod(sortField)
    ensures c.sortAscending
    ensures c.targetMethod.None? <==> (sortField.None? || |sortField.value| == 0)
  {
    Config(PrepareTargetMethod(sortField), true)
  }

  /** GenericComparator(String sortField, boolean sortAscending). */
  function ComparatorOnFieldWithDirection(sortField: Option<string>, sortAscending: bool): (c: Config)
    ensures c.targetMethod == PrepareTargetMethod(sortField)
    ensures c.sortAscending == sortAscending
    ensures c.targetMethod.None? <==> (sortField.None? || |sortField.value| == 0)
  {
    Config(PrepareTargetMethod(sortField), sortAscending)
  }

  // -----------------------------------------------------------------------
  // Instance methods

  /** determinePosition: the direction sign. */
  function DeterminePosition(c: Config): (r: int)
    ensures r == GREATER <==> c.sortAscending
    ensures r == LESSER <==> !c.sortAscending
  {
    if c.sortAscending then GREATER else LESSER
  }

  /** findCompareMode: where the nulls are, DEFAULT when there are none. */
  function FindCompareMode<T>(o1: Option<T>, o2: Option<T>): (cm: CompareMode)
    ensures cm == Default <==> o1.Some? && o2.Some?
    ensures cm == Equal <==> o1.None? && o2.None?
    ensures cm == LessThan <==> o1.None? && o2.Some?
    ensures cm == GreaterThan <==> o1.Some? && o2.None?
  {
    if o1.None? && o2.None? then Equal
    else if o1.None? then LessThan
    else if o2.None? then GreaterThan
    else Default
  }

  /** compareAlternate: the result when at least one value is null; the
      DEFAULT case is an unscaled LESSER. */
  function CompareAlternate(c: Config, cm: CompareMode): (r: int)
    ensures cm == Equal ==> r == 0
    ensures cm == LessThan ==> r == -DeterminePosition(c) && (r < 0 <==> c.sortAscending)
    ensures cm == GreaterThan ==> r == DeterminePosition(c) && (r > 0 <==> c.sortAscending)
    ensures cm == Default ==> r == LESSER
  {
    match cm
    case LessThan => LESSER * DeterminePosition(c)
    case GreaterThan => GREATER * DeterminePosition(c)
    case Equal => EQUAL * DeterminePosition(c)
    case Default => LESSER
  }

  /** The class name compareActual switches on: the given type, unless that is
      java.lang.Object, in which case the class of the first value. */
  function DispatchType(returnType: string, v1: Value): (t: string)
    ensures returnType != DATATYPE_OBJECT ==> t == returnType
    ensures returnType == DATATYPE_OBJECT ==> t == TypeName(v1)
  {
    if returnType == DATATYPE_OBJECT then TypeName(v1) else returnType
  }

  /** Both casts in the case compareActual selects succeed (no
      ClassCastException). Nothing is cast when no case applies. */
  predicate CastSucceeds(v1: Value, v2: Value, returnType: string) {
    var t := DispatchType(returnType, v1);
    IsSupportedType(t) ==> TypeName(v1) == t && TypeName(v2) == t
  }

  /** compareActual: the natural compareTo of the selected class times the
      direction sign, or an unscaled LESSER for any other class name. */
  function CompareActual(c: Config, v1: Value, v2: Value, returnType: string): (r: int)
    requires CastSucceeds(v1, v2, returnType)
    ensures IsSupportedType(DispatchType(returnType, v1)) ==>
      SameSupportedKind(v1, v2) && r == NaturalCompare(v1, v2) * DeterminePosition(c)
    ensures !IsSupportedType(DispatchType(returnType, v1)) ==> r == LESSER
  {
    var obj := DispatchType(returnType, v1);
    if obj == DATATYPE_INTEGER then NumericCompare(v1.i, v2.i) * DeterminePosition(c)
    else if obj == DATATYPE_LONG then NumericCompare(v1.l, v2.l) * DeterminePosition(c)
    else if obj == DATATYPE_STRING then StringCompare(v1.s, v2.s) * DeterminePosition(c)
    else if obj == DATATYPE_DATE then DateCompare(v1.date, v2.date) * DeterminePosition(c)
    else if obj == DATATYPE_FLOAT then NumericCompare(v1.floatRank, v2.floatRank) * DeterminePosition(c)
    else if obj == DATATYPE_DOUBLE then NumericCompare(v1.doubleRank, v2.doubleRank) * DeterminePosition(c)
    else if obj == DATATYPE_BOOLEAN then BooleanCompare(v1.b, v2.b) * DeterminePosition(c)
    else LESSER
  }

  /** The values to compare and the type to dispatch on, for two non-null
      operands: the operands and the class of the first, or the getter's
      results on each and the getter's declared type on the first. The getter
      is looked up on o1 a second time for its return type; it is the same
      lookup that has just succeeded, so the first result is reused. */
  datatype Operands = Operands(v1: Option<Value>, v2: Option<Value>, returnType: string)

  function ResolveOperands(c: Config, getter: Getter, o1: Value, o2: Value)
    : (r: Result<Operands, ReflectiveFailure>)
    ensures c.targetMethod.None? ==> r == Ok(Operands(Some(o1), Some(o2), TypeName(o1)))
    ensures c.targetMethod.Some? ==>
      var m := c.targetMethod.value;
      && (r.Err? <==> getter(o1, m).Threw? || (getter(o1, m).Returned? && getter(o2, m).Threw?))
      && (r.Err? ==> r.error == if getter(o1, m).Threw? then getter(o1, m).failure else getter(o2, m).failure)
      && (r.Ok? ==> r.value == Operands(getter(o1, m).result, getter(o2, m).result, getter(o1, m).declaredType))
  {
    match c.targetMethod
    case None => Ok(Operands(Some(o1), Some(o2), TypeName(o1)))
    case Some(m) =>
      match getter(o1, m)
      case Threw(e) => Err(e)
      case Returned(declared, v1) =>
        match getter(o2, m)
        case Threw(e) => Err(e)
        case Returned(_, v2) => Ok(Operands(v1, v2, declared))
  }

  /** compare throws no ClassCastException on these operands. */
  predicate NoClassCast(c: Config, getter: Getter, o1: Option<Value>, o2: Option<Value>) {
    o1.Some? && o2.Some? ==>
      match ResolveOperands(c, getter, o1.value, o2.value)
      case Ok(Operands(Some(v1), Some(v2), t)) => CastSucceeds(v1, v2, t)
      case _ => true
  }

  /** compare(o1, o2). */
  function Compare(c: Config, getter: Getter, o1: Option<Value>, o2: Option<Value>): (r: Outcome)
    requires NoClassCast(c, getter, o1, o2)
    ensures o1.None? && o2.None? ==> r == Outcome(EQUAL, None)
    ensures o1.None? && o2.Some? ==> r == Outcome(-DeterminePosition(c), None)
    ensures o1.Some? && o2.None? ==> r == Outcome(DeterminePosition(c), None)
    ensures r.logged.Some? <==>
      o1.Some? && o2.Some? && ResolveOperands(c, getter, o1.value, o2.value).Err?
    ensures r.logged.Some? ==> r.result == LESSER && c.targetMethod.Some?
  {
    if o1.None? && o2.None? then Outcome(EQUAL, None)
    else if o1.None? then Outcome(-1 * DeterminePosition(c), None)
    else if o2.None? then Outcome(DeterminePosition(c), None)
    else
      match ResolveOperands(c, getter, o1.value, o2.value)
      case Err(e) => Outcome(LESSER, Some(e))
      case Ok(Operands(v1, v2, returnType)) =>
        var cm := FindCompareMode(v1, v2);
        if cm != Default then Outcome(CompareAlternate(c, cm), None)
        else Outcome(CompareActual(c, v1.value, v2.value, returnType), None)
  }
}

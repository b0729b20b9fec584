/** The values the comparator can meet and the natural orderings the JDK gives
    them: Integer.compareTo, Long.compareTo, String.compareTo,
    LocalDate.compareTo, Float.compareTo, Double.compareTo and
    Boolean.compareTo. Each is what GenericComparator.compareActual calls
    after casting both operands to the class it dispatches on. */
module JavaValues {

  /** Fully qualified class names, as Class.getName reports them. */
  const DATATYPE_STRING: string := "java.lang.String"
  const DATATYPE_DATE: string := "java.time.LocalDate"
  const DATATYPE_INTEGER: string := "java.lang.Integer"
  const DATATYPE_LONG: string := "java.lang.Long"
  const DATATYPE_FLOAT: string := "java.lang.Float"
  const DATATYPE_DOUBLE: string := "java.lang.Double"
  const DATATYPE_BOOLEAN: string := "java.lang.Boolean"
  const DATATYPE_OBJECT: string := "java.lang.Object"

  /** The class names compareActual has a case for. */
  predicate IsSupportedType(name: string) {
    name == DATATYPE_INTEGER || name == DATATYPE_LONG || name == DATATYPE_STRING ||
    name == DATATYPE_DATE || name == DATATYPE_FLOAT || name == DATATYPE_DOUBLE ||
    name == DATATYPE_BOOLEAN
  }

  type Int32 = x: int | -0x8000_0000 <= x < 0x8000_0000
  type Int64 = x: int | -0x8000_0000_0000_0000 <= x < 0x8000_0000_0000_0000

  /** A Java String: at most Integer.MAX_VALUE chars. */
  type JString = s: string | |s| <= 0x7fff_ffff

  /** The range LocalDate accepts (LocalDate.MIN to LocalDate.MAX). */
  type Year = y: int | -999_999_999 <= y <= 999_999_999
  type Month = m: int | 1 <= m <= 12 witness 1
  type DayOfMonth = d: int | 1 <= d <= 31 witness 1

  /** The class of an object none of the supported cases applies to: a domain
      object, a Short, a BigDecimal, ... */
  type OtherClassName = s: string | !IsSupportedType(s) witness DATATYPE_OBJECT

  datatype LocalDate = LocalDate(year: Year, month: Month, day: DayOfMonth)

  /** A non-null Java object, as far as the comparator can tell them apart.
      Float and Double values are represented by their rank in the total order
      that Float.compare and Double.compare impose (NaN last, -0.0 before 0.0);
      an object of any other class by its class name and an identity. */
  datatype Value =
    | IntegerV(i: Int32)
    | LongV(l: Int64)
    | StringV(s: JString)
    | LocalDateV(date: LocalDate)
    | FloatV(floatRank: int)
    | DoubleV(doubleRank: int)
    | BooleanV(b: bool)
    | ObjectV(className: OtherClassName, identity: nat)

  /** o.getClass().getName() */
  function TypeName(v: Value): (name: string)
    ensures IsSupportedType(name) <==> !v.ObjectV?
  {
    match v
    case IntegerV(_) => DATATYPE_INTEGER
    case LongV(_) => DATATYPE_LONG
    case StringV(_) => DATATYPE_STRING
    case LocalDateV(_) => DATATYPE_DATE
    case FloatV(_) => DATATYPE_FLOAT
    case DoubleV(_) => DATATYPE_DOUBLE
    case BooleanV(_) => DATATYPE_BOOLEAN
    case ObjectV(c, _) => c
  }

  /** Integer.compare / Long.compare: -1, 0 or 1 by numeric order. Float.compare
      and Double.compare are the same on ranks. */
  function NumericCompare(x: int, y: int): (r: int)
    ensures -1 <= r <= 1
    ensures r < 0 <==> x < y
    ensures r == 0 <==> x == y
  {
    if x < y then -1 else if x == y then 0 else 1
  }

  /** Boolean.compare: false orders before true. */
  function BooleanCompare(x: bool, y: bool): (r: int)
    ensures -1 <= r <= 1
    ensures r < 0 <==> (!x && y)
    ensures r == 0 <==> x == y
  {
    if x == y then 0 else if x then 1 else -1
  }

  /** String.compareTo: at the first index where the two differ, the
      difference of the two chars; if one is a prefix of the other, the
      difference of the lengths. */
  function StringCompare(a: string, b: string): (r: int)
    ensures r == 0 <==> a == b
    decreases |a|
  {
    if |a| == 0 || |b| == 0 then |a| - |b|
    else if a[0] != b[0] then a[0] as int - b[0] as int
    else
      var r := StringCompare(a[1..], b[1..]);
      assert a == [a[0]] + a[1..] && b == [b[0]] + b[1..];
      r
  }

  /** LocalDate.compareTo: the year difference, else the month difference,
      else the day difference. */
  function DateCompare(x: LocalDate, y: LocalDate): (r: int)
    ensures r == 0 <==> x == y
  {
    var cmp := x.year - y.year;
    if cmp != 0 then cmp
    else
      var cmpMonth := x.month - y.month;
      if cmpMonth != 0 then cmpMonth else x.day - y.day
  }

  /** Lexicographic order on strings, stated without recursion: a is a proper
      prefix of b, or a and b agree up to some index where a's char is smaller. */
  ghost predicate LexLess(a: string, b: string) {
    (|a| < |b| && a == b[..|a|]) ||
    (exists k :: 0 <= k < |a| && k < |b| && a[..k] == b[..k] && a[k] < b[k])
  }

  /** The two values are of the same supported class: both casts in
      compareActual succeed and one of its cases applies. */
  predicate SameSupportedKind(v: Value, w: Value) {
    !v.ObjectV? && TypeName(v) == TypeName(w)
  }

  /** The natural compareTo of two values of the same supported class. */
  function NaturalCompare(v: Value, w: Value): (r: int)
    requires SameSupportedKind(v, w)
    ensures r == 0 <==> v == w
    ensures v.IntegerV? || v.LongV? || v.FloatV? || v.DoubleV? || v.BooleanV? ==> -1 <= r <= 1
  {
    match v
    case IntegerV(x) => NumericCompare(x, w.i)
    case LongV(x) => NumericCompare(x, w.l)
    case StringV(x) => StringCompare(x, w.s)
    case LocalDateV(x) => DateCompare(x, w.date)
    case FloatV(x) => NumericCompare(x, w.floatRank)
    case DoubleV(x) => NumericCompare(x, w.doubleRank)
    case BooleanV(x) => BooleanCompare(x, w.b)
  }

  /** The strict order each supported class is meant to have, defined
      independently of the compareTo functions above. */
  ghost predicate Precedes(v: Value, w: Value)
    requires SameSupportedKind(v, w)
  {
    match v
    case IntegerV(x) => x < w.i
    case LongV(x) => x < w.l
    case StringV(x) => LexLess(x, w.s)
    case LocalDateV(x) =>
      x.year < w.date.year ||
      (x.year == w.date.year && (x.month < w.date.month ||
                                 (x.month == w.date.month && x.day < w.date.day)))
    case FloatV(x) => x < w.floatRank
    case DoubleV(x) => x < w.doubleRank
    case BooleanV(x) => !x && w.b
  }

  // ---------------------------------------------------------------------
  // String.compareTo against the lexicographic order

  lemma LexLessFromEmpty(b: string)
    ensures LexLess([], b) <==> |b| > 0
  {
    if |b| > 0 { assert [] == b[..0]; }
  }

  lemma LexLessToEmpty(a: string)
    ensures !LexLess(a, [])
  {
  }

  /** With different first chars, the first chars decide. */
  lemma LexLessHead(a: string, b: string)
    requires |a| > 0 && |b| > 0 && a[0] != b[0]
    ensures LexLess(a, b) <==> a[0] < b[0]
  {
  }

  /** With equal first chars, the order is that of the tails. */
  lemma LexLessTail(a: string, b: string)
    requires |a| > 0 && |b| > 0 && a[0] == b[0]
    ensures LexLess(a, b) <==> LexLess(a[1..], b[1..])
  {
    var a', b' := a[1..], b[1..];
    if |a| < |b| && a == b[..|a|] {
      assert a' == b'[..|a'|];
    } else if k :| 0 <= k < |a| && k < |b| && a[..k] == b[..k] && a[k] < b[k] {
      assert k != 0;
      assert a'[..k-1] == a[1..k] == b[1..k] == b'[..k-1];
      assert a'[k-1] < b'[k-1];
    }
    if |a'| < |b'| && a' == b'[..|a'|] {
      assert a == [a[0]] + a' && b[..|a|] == [b[0]] + b'[..|a'|];
    } else if k :| 0 <= k < |a'| && k < |b'| && a'[..k] == b'[..k] && a'[k] < b'[k] {
      assert a[..k+1] == [a[0]] + a'[..k] && b[..k+1] == [b[0]] + b'[..k];
      assert a[k+1] < b[k+1];
    }
  }

  /** String.compareTo is negative exactly when a precedes b lexicographically. */
  lemma {:induction false} StringCompareNegativeIffLexLess(a: string, b: string)
    ensures StringCompare(a, b) < 0 <==> LexLess(a, b)
    decreases |a|
  {
    if |a| == 0 {
      LexLessFromEmpty(b);
    } else if |b| == 0 {
      LexLessToEmpty(a);
    } else if a[0] != b[0] {
      LexLessHead(a, b);
    } else {
      StringCompareNegativeIffLexLess(a[1..], b[1..]);
      LexLessTail(a, b);
    }
  }

  /** Swapping the operands of String.compareTo negates the result. */
  lemma {:induction false} StringCompareAntisymmetric(a: string, b: string)
    ensures StringCompare(a, b) == -StringCompare(b, a)
    decreases |a|
  {
    if |a| > 0 && |b| > 0 && a[0] == b[0] {
      StringCompareAntisymmetric(a[1..], b[1..]);
    }
  }

  /** For Java strings the result is a Java int, and so is its negation. */
  lemma {:induction false} StringCompareInRange(a: JString, b: JString)
    ensures -0x7fff_ffff <= StringCompare(a, b) <= 0x7fff_ffff
    decreases |a|
  {
    if |a| > 0 && |b| > 0 && a[0] == b[0] {
      StringCompareInRange(a[1..], b[1..]);
    }
  }

  /** Lexicographic order is transitive. */
  lemma LexLessTransitive(a: string, b: string, c: string)
    requires LexLess(a, b) && LexLess(b, c)
    ensures LexLess(a, c)
  {
  }


  // ---------------------------------------------------------------------
  // The natural compareTo of every supported class

  /** The sign of compareTo says which value precedes the other; 0 only for
      equal values. */
  lemma NaturalCompareOrders(v: Value, w: Value)
    requires SameSupportedKind(v, w)
    ensures NaturalCompare(v, w) < 0 <==> Precedes(v, w)
    ensures NaturalCompare(v, w) == 0 <==> v == w
    ensures NaturalCompare(v, w) > 0 <==> Precedes(w, v)
  {
    match v
    case StringV(x) =>
      StringCompareNegativeIffLexLess(x, w.s);
      StringCompareNegativeIffLexLess(w.s, x);
      StringCompareAntisymmetric(x, w.s);
    case _ =>
  }

  /** compareTo of every supported class is antisymmetric. */
  lemma NaturalCompareAntisymmetric(v: Value, w: Value)
    requires SameSupportedKind(v, w)
    ensures NaturalCompare(v, w) == -NaturalCompare(w, v)
  {
    if v.StringV? { StringCompareAntisymmetric(v.s, w.s); }
  }

  /** compareTo never returns Integer.MIN_VALUE, so multiplying it by -1 (as
      the comparator does for a descending sort) cannot overflow. */
  lemma NaturalCompareInRange(v: Value, w: Value)
    requires SameSupportedKind(v, w)
    ensures -0x7fff_ffff <= NaturalCompare(v, w) <= 0x7fff_ffff
  {
    if v.StringV? { StringCompareInRange(v.s, w.s); }
  }

  /** Precedes is a strict total order on each supported class. */
  lemma PrecedesIsStrictTotalOrder(u: Value, v: Value, w: Value)
    requires SameSupportedKind(u, v) && SameSupportedKind(v, w)
    ensures !Precedes(u, u)
    ensures Precedes(u, v) || u == v || Precedes(v, u)
    ensures Precedes(u, v) && Precedes(v, w) ==> Precedes(u, w)
  {
    NaturalCompareOrders(u, u);
    NaturalCompareOrders(u, v);
    if u.StringV? && Precedes(u, v) && Precedes(v, w) {
      LexLessTransitive(u.s, v.s, w.s);
    }
  }
}

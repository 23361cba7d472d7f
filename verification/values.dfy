/**
 * The values that flow through the data-access and service layers: Python
 * dict/list/str/bool/int/None as they are stored in the document store,
 * plus the two store-specific scalars the core handles, an ObjectId and a
 * datetime. A document (a Python dict with string keys) is a map.
 */
module Values {
  import opened Basics
  import Text

  datatype Value =
    | Str(s: string)
    | Bool(b: bool)
    | Null
    | Int(i: int)
    | Map(fields: map<string, Value>)
    | List(items: seq<Value>)
    | Oid(hex: string)       // a bson ObjectId, by its hexadecimal form
    | Time(instant: int)     // a datetime, by an abstract instant

  type Document = map<string, Value>

  /** Python's `d.get(key)`: None for a missing key. */
  function Get(d: Document, key: string): (v: Value)
    ensures key !in d ==> v == Null
  {
    if key in d then d[key] else Null
  }

  /** Python truthiness: empty strings, containers, zero, False and None are falsy. */
  predicate Truthy(v: Value)
  {
    match v
    case Str(s) => s != ""
    case Bool(b) => b
    case Null => false
    case Int(i) => i != 0
    case Map(m) => m != map[]
    case List(xs) => xs != []
    case Oid(_) => true
    case Time(_) => true
  }

  /**
   * Python's `==` between two values. It is structural except that a bool
   * equals the int of the same number (`True == 1`, `False == 0`) and an
   * ObjectId never equals a str.
   */
  predicate PyEq(a: Value, b: Value)
  {
    match (a, b)
    case (Str(x), Str(y)) => x == y
    case (Bool(x), Bool(y)) => x == y
    case (Bool(x), Int(y)) => y == (if x then 1 else 0)
    case (Int(x), Bool(y)) => x == (if y then 1 else 0)
    case (Int(x), Int(y)) => x == y
    case (Null, Null) => true
    case (Map(x), Map(y)) => x.Keys == y.Keys && forall k :: k in x ==> PyEq(x[k], y[k])
    case (List(x), List(y)) => |x| == |y| && forall i :: 0 <= i < |x| ==> PyEq(x[i], y[i])
    case (Oid(x), Oid(y)) => x == y
    case (Time(x), Time(y)) => x == y
    case _ => false
  }

  /** Every value is `==` to itself. */
  lemma {:induction false} PyEqReflexive(v: Value)
    ensures PyEq(v, v)
  {
    match v
    case Map(m) =>
      forall k | k in m ensures PyEq(m[k], m[k]) { PyEqReflexive(m[k]); }
    case List(xs) =>
      forall i | 0 <= i < |xs| ensures PyEq(xs[i], xs[i]) { PyEqReflexive(xs[i]); }
    case _ =>
  }

  /** `==` is symmetric. */
  lemma {:induction false} PyEqSymmetric(a: Value, b: Value)
    requires PyEq(a, b)
    ensures PyEq(b, a)
  {
    match (a, b)
    case (Map(x), Map(y)) =>
      forall k | k in y ensures PyEq(y[k], x[k]) { PyEqSymmetric(x[k], y[k]); }
    case (List(x), List(y)) =>
      forall i | 0 <= i < |y| ensures PyEq(y[i], x[i]) { PyEqSymmetric(x[i], y[i]); }
    case _ =>
  }

  /** Equal values are `==`; the converse fails only through bool/int mixing. */
  lemma PyEqOfEqual(a: Value, b: Value)
    requires a == b
    ensures PyEq(a, b)
  {
    PyEqReflexive(a);
  }

  /**
   * Python's `str(v)`, used where the source formats a value into a message
   * or turns an ObjectId into text. Dicts, lists and datetimes are rendered
   * by fixed placeholders (their Python rendering is not modelled).
   */
  function Render(v: Value): string
  {
    match v
    case Str(s) => s
    case Bool(b) => if b then "True" else "False"
    case Null => "None"
    case Int(i) => Text.IntToString(i)
    case Map(_) => "{...}"
    case List(_) => "[...]"
    case Oid(h) => h
    case Time(_) => "<datetime>"
  }
}

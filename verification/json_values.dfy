/** Decoded JSON values as the Python side sees them after `response.json()`,
    together with the two pieces of Python semantics the watcher relies on:
    `==` between decoded values and `str()` of a value inside an f-string. */
module JsonValues {

  /** A decoded JSON value. Numbers are integers only; `null` is Python's `None`. */
  datatype Json =
    | JNull
    | JBool(b: bool)
    | JNum(n: int)
    | JStr(s: string)
    | JArr(items: seq<Json>)
    | JObj(fields: map<string, Json>)

  /** The integer a scalar stands for in Python arithmetic comparisons
      (`True == 1`, `False == 0`). */
  function NumericValue(j: Json): int
    requires j.JBool? || j.JNum?
  {
    match j
    case JBool(b) => if b then 1 else 0
    case JNum(n) => n
  }

  /** Python's `==` on decoded values: dictionaries compare key set and values,
      lists compare element-wise, and `bool` compares equal to `int`. */
  predicate PyEq(a: Json, b: Json)
  {
    match (a, b)
    case (JObj(m), JObj(n)) => m.Keys == n.Keys && forall k | k in m :: PyEq(m[k], n[k])
    case (JArr(x), JArr(y)) => |x| == |y| && forall i | 0 <= i < |x| :: PyEq(x[i], y[i])
    case (JBool(_), JNum(_)) => NumericValue(a) == NumericValue(b)
    case (JNum(_), JBool(_)) => NumericValue(a) == NumericValue(b)
    case (JBool(_), JBool(_)) => NumericValue(a) == NumericValue(b)
    case _ => a == b
  }

  /** Every value is Python-equal to itself. */
  lemma {:induction false} PyEqReflexive(a: Json)
    ensures PyEq(a, a)
  {
    match a
    case JObj(m) =>
      forall k | k in m
        ensures PyEq(m[k], m[k])
      {
        PyEqReflexive(m[k]);
      }
    case JArr(x) =>
      forall i | 0 <= i < |x|
        ensures PyEq(x[i], x[i])
      {
        PyEqReflexive(x[i]);
      }
    case _ =>
  }

  /** Python equality is symmetric. */
  lemma {:induction false} PyEqSymmetric(a: Json, b: Json)
    requires PyEq(a, b)
    ensures PyEq(b, a)
  {
    match (a, b)
    case (JObj(m), JObj(n)) =>
      forall k | k in n
        ensures PyEq(n[k], m[k])
      {
        PyEqSymmetric(m[k], n[k]);
      }
    case (JArr(x), JArr(y)) =>
      forall i | 0 <= i < |y|
        ensures PyEq(y[i], x[i])
      {
        PyEqSymmetric(x[i], y[i]);
      }
    case _ =>
  }

  /** Python equality is coarser than structural equality: a record holding
      `true` equals one holding `1`, so such a change goes unnoticed. */
  lemma BoolEqualsOne()
    ensures PyEq(JObj(map["status" := JBool(true)]), JObj(map["status" := JNum(1)]))
    ensures JObj(map["status" := JBool(true)]) != JObj(map["status" := JNum(1)])
  {
    var m1 := map["status" := JBool(true)];
    var m2 := map["status" := JNum(1)];
    assert m1["status"] != m2["status"];
  }

  /** The name of a value's Python type, as it appears in exception messages. */
  function TypeName(j: Json): string
  {
    match j
    case JNull => "NoneType"
    case JBool(_) => "bool"
    case JNum(_) => "int"
    case JStr(_) => "str"
    case JArr(_) => "list"
    case JObj(_) => "dict"
  }

  function DigitChar(d: nat): char
    requires d < 10
  {
    "0123456789"[d]
  }

  /** Decimal rendering of a natural number, most significant digit first. */
  function NatToString(n: nat): (r: string)
    ensures |r| > 0
    ensures forall i | 0 <= i < |r| :: '0' <= r[i] <= '9'
    decreases n
  {
    if n < 10 then [DigitChar(n)] else NatToString(n / 10) + [DigitChar(n % 10)]
  }

  /** Python's `str(n)` for an integer. */
  function IntToString(n: int): string
  {
    if n < 0 then "-" + NatToString(-n) else NatToString(n)
  }

  /** Python's `str()` of a decoded value, as an f-string renders it. */
  function Show(j: Json): string
  {
    match j
    case JNull => "None"
    case JBool(b) => if b then "True" else "False"
    case JNum(n) => IntToString(n)
    case JStr(s) => s
    case JArr(_) => "[...]"
    case JObj(_) => "{...}"
  }
}

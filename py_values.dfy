/**
 * The few pieces of Python's value semantics the records depend on: the scalar values a
 * dataset loader passes as keyword arguments, truthiness, `==` between them, lookup in a
 * dictionary literal, `float()` and the exceptions these raise.
 */
module PyValues {
  import opened Wrappers

  /** A Python float as far as the records tell floats apart: NaN, or a finite value. */
  datatype Float = NaN | Finite(x: real)

  /** A scalar Python value: `None`, a `bool`, a number (`int` or `float`) or a `str`. */
  datatype Value = PyNone | PyBool(b: bool) | PyNumber(n: Float) | PyText(s: string)

  /** The exceptions the records' operations raise, with what they were raised about. */
  datatype Exception =
    | KeyError(key: Value)              // a dictionary had no entry equal to `key`
    | TypeError(operand: Value)         // `float()` of a value that is neither a number nor text
    | ValueError(text: string)          // `float()` of text that is no numeral
    | TimeNotParsed(text: string)       // the date-time parser rejected an approach time
    | AttributeError(attribute: string) // an attribute read on an object that does not have it

  /** Python truthiness: `None`, `False`, zero and the empty string are falsy; NaN is truthy. */
  predicate Falsy(v: Value) {
    match v
    case PyNone => true
    case PyBool(b) => !b
    case PyNumber(n) => n == Finite(0.0)
    case PyText(s) => s == ""
  }

  /** The number a `bool` or a number stands for under `==`: `bool` is a subclass of `int`. */
  function NumericValue(v: Value): Option<real> {
    match v
    case PyBool(b) => Some(if b then 1.0 else 0.0)
    case PyNumber(Finite(x)) => Some(x)
    case _ => None
  }

  /** Python's `a == b` between scalars: so `False == 0 == 0.0`, `True == 1`, and NaN equals nothing. */
  predicate PyEq(a: Value, b: Value) {
    match a
    case PyNone => b.PyNone?
    case PyText(s) => b.PyText? && b.s == s
    case _ => NumericValue(a).Some? && NumericValue(a) == NumericValue(b)
  }

  /**
   * `table[key]` for a dictionary literal whose entries are `table`, in order, with pairwise
   * unequal keys: the value of the entry whose key equals `key`, or None where Python raises
   * `KeyError`.
   */
  function Lookup<V>(table: seq<(Value, V)>, key: Value): (r: Option<V>)
    ensures r.Some? <==> exists i :: 0 <= i < |table| && PyEq(table[i].0, key)
    ensures r.Some? ==> exists i :: 0 <= i < |table| && PyEq(table[i].0, key) && r.value == table[i].1
  {
    if |table| == 0 then None
    else if PyEq(table[0].0, key) then Some(table[0].1)
    else
      var r := Lookup(table[1..], key);
      assert forall i :: 1 <= i < |table| ==> table[i] == table[1..][i - 1];
      r
  }

  /** `==` is symmetric. */
  lemma PyEqSymmetric(a: Value, b: Value)
    ensures PyEq(a, b) == PyEq(b, a)
  {
  }

  /** `==` is transitive. */
  lemma PyEqTransitive(a: Value, b: Value, c: Value)
    requires PyEq(a, b) && PyEq(b, c)
    ensures PyEq(a, c)
  {
  }

  /** NaN equals nothing, itself included. */
  lemma NaNEqualsNothing(a: Value)
    ensures !PyEq(PyNumber(NaN), a) && !PyEq(a, PyNumber(NaN))
  {
  }

  /** No two keys of `table` are equal, as in a dictionary. */
  predicate KeysDistinct<V>(table: seq<(Value, V)>) {
    forall i, j :: 0 <= i < j < |table| ==> !PyEq(table[i].0, table[j].0)
  }

  /**
   * With pairwise unequal keys, `Lookup` returns the value of the one entry whose key equals
   * `key`; it follows from `Lookup`'s contract and the definition of `PyEq`.
   */
  lemma LookupFindsTheEqualKey<V>(table: seq<(Value, V)>, key: Value, i: nat)
    requires KeysDistinct(table)
    requires i < |table| && PyEq(table[i].0, key)
    ensures Lookup(table, key) == Some(table[i].1)
  {
  }

  /** Python's `float(v)`; text is read by the interpreter's numeral grammar, given as `floatOfText`. */
  function ToFloat(v: Value, floatOfText: string -> Option<Float>): Result<Float, Exception> {
    match v
    case PyNone => Failure(TypeError(v))
    case PyBool(b) => Success(Finite(if b then 1.0 else 0.0))
    case PyNumber(n) => Success(n)
    case PyText(s) =>
      match floatOfText(s)
      case Some(n) => Success(n)
      case None => Failure(ValueError(s))
  }
}

/** The dynamically typed values a VirtualBox VM node keeps in its settings
    dictionary, and the few pieces of Python semantics the node relies on:
    equality (where `1 == True`), truthiness, and what `range()` accepts. */
module PyValues {

  datatype Option<T> = None | Some(value: T)

  /** The errors the node can raise while handling settings. */
  datatype Error = KeyError(key: string) | TypeError

  datatype Result<T> = Success(value: T) | Failure(error: Error)

  /** A settings value as received from the compute server (JSON scalars). */
  datatype Value = VNone | VBool(b: bool) | VInt(i: int) | VStr(s: string)

  /** The integer a boolean stands for in Python (`bool` is a subclass of `int`). */
  function BoolAsInt(b: bool): (i: int)
  {
    if b then 1 else 0
  }

  /** Python `==` on settings values: booleans and integers compare numerically,
      values of otherwise different types are never equal. */
  predicate PyEq(a: Value, b: Value)
  {
    match (a, b)
    case (VInt(x), VBool(y)) => x == BoolAsInt(y)
    case (VBool(x), VInt(y)) => BoolAsInt(x) == y
    case _ => a == b
  }

  /** Python truthiness: `None`, `False`, `0` and `""` are false. */
  predicate Truthy(v: Value)
  {
    match v
    case VNone => false
    case VBool(b) => b
    case VInt(i) => i != 0
    case VStr(s) => s != ""
  }

  /** The upper bound `range(0, v)` iterates to: integers and booleans are
      accepted, every other value makes `range` raise a TypeError. */
  function AsRangeBound(v: Value): (r: Option<int>)
    ensures r.Some? <==> v.VInt? || v.VBool?
    ensures v.VInt? ==> r == Some(v.i)
    ensures v.VBool? ==> r == Some(BoolAsInt(v.b))
  {
    match v
    case VInt(i) => Some(i)
    case VBool(b) => Some(BoolAsInt(b))
    case _ => None
  }

  /** Number of iterations of `range(0, n)`. */
  function RangeLength(n: int): (r: nat)
  {
    if n < 0 then 0 else n
  }

  /** Python's `%`, which rounds the quotient toward minus infinity, so the
      remainder takes the sign of the divisor. */
  function PyMod(a: int, b: int): (r: int)
    requires b != 0
    ensures b > 0 ==> 0 <= r < b
    ensures b < 0 ==> b < r <= 0
    ensures r == 0 <==> a % b == 0
    ensures exists q :: a == b * q + r
  {
    var e := a % b;
    if b < 0 && e != 0 then
      assert a == b * (a / b - 1) + (e + b);
      e + b
    else
      assert a == b * (a / b) + e;
      e
  }

  /** Values Python considers equal give `range` the same bound. */
  lemma PyEqSameRangeBound(a: Value, b: Value)
    requires PyEq(a, b)
    ensures AsRangeBound(a) == AsRangeBound(b)
  {
  }

  /** Equal values (in Python's sense) are equally truthy. */
  lemma PyEqSameTruthiness(a: Value, b: Value)
    requires PyEq(a, b)
    ensures Truthy(a) == Truthy(b)
  {
  }
}

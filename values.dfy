// Python values as the modelled code sees them: JSON-like data, dictionaries
// that keep insertion order, the exceptions the code can raise, and the few
// built-in conversions (truthiness, float(), int(), ==) it relies on.
module Values {

  datatype Option<T> = None | Some(value: T)

  /** The Python exceptions that can escape from a modelled operation. */
  datatype PyError =
    | TypeError
    | ValueError
    | KeyError(key: string)
    | AttributeError(name: string)
    | AssertionError
    | ImportError(name: string)
    | ZeroDivisionError
    | IntegrityError
    /** `sqlite3` cannot bind a list or a dictionary as a query parameter
      * (InterfaceError or ProgrammingError, by Python version). */
    | BindingError

  datatype Result<T> = Ok(value: T) | Err(error: PyError) {
    predicate IsFailure() { Err? }
    function PropagateFailure<U>(): Result<U> requires Err? { Err(error) }
    function Extract(): T requires Ok? { value }
  }

  /** A dynamically typed Python value. A dictionary is the list of its
    * entries in insertion order; the dictionaries built by this model never
    * repeat a key (see `Put`). */
  datatype Value =
    | VNone
    | VBool(b: bool)
    | VInt(i: int)
    | VReal(r: real)
    | VStr(s: string)
    | VList(items: seq<Value>)
    | VDict(entries: seq<(string, Value)>)

  type Dict = seq<(string, Value)>

  /** `d.get(k)`: the value stored under the first entry with key `k`. */
  function Get(d: Dict, k: string): Option<Value> {
    if d == [] then None
    else if d[0].0 == k then Some(d[0].1)
    else Get(d[1..], k)
  }

  /** `k in d` */
  predicate Has(d: Dict, k: string) {
    Get(d, k).Some?
  }

  lemma {:induction false} GetIn(d: Dict, k: string)
    requires Has(d, k)
    ensures (k, Get(d, k).value) in d
  {
    if d[0].0 != k { GetIn(d[1..], k); }
  }

  lemma {:induction false} InHas(d: Dict, k: string, v: Value)
    requires (k, v) in d
    ensures Has(d, k)
  {
    if d[0].0 != k {
      assert (k, v) in d[1..] by { assert d == [d[0]] + d[1..]; }
      InHas(d[1..], k, v);
    }
  }

  /** `d.get(k, default)` */
  function GetOr(d: Dict, k: string, default: Value): (r: Value)
    ensures !Has(d, k) ==> r == default
    ensures Has(d, k) ==> Get(d, k) == Some(r)
  {
    match Get(d, k)
    case Some(v) => v
    case None => default
  }

  /** `d[k] = v`: an existing key keeps its position, a new key goes last. */
  function Put(d: Dict, k: string, v: Value): (r: Dict)
    ensures Has(d, k) ==> |r| == |d|
    ensures !Has(d, k) ==> r == d + [(k, v)]
  {
    if d == [] then [(k, v)]
    else if d[0].0 == k then [(k, v)] + d[1..]
    else
      assert [d[0]] + d[1..] == d;
      [d[0]] + Put(d[1..], k, v)
  }

  lemma {:induction false} PutGet(d: Dict, k: string, v: Value, k': string)
    ensures Get(Put(d, k, v), k') == if k' == k then Some(v) else Get(d, k')
  {
    if d != [] && d[0].0 != k { PutGet(d[1..], k, v, k'); }
  }

  /** Writing a key twice leaves what writing it once with the last value does. */
  lemma {:induction false} PutPut(d: Dict, k: string, v: Value, w: Value)
    ensures Put(Put(d, k, v), k, w) == Put(d, k, w)
  {
    if d != [] && d[0].0 != k { PutPut(d[1..], k, v, w); }
  }

  /** `d[k]`: a missing key raises KeyError. */
  function Subscript(d: Dict, k: string): (r: Result<Value>)
    ensures r.Ok? <==> Has(d, k)
    ensures r.Ok? ==> Get(d, k) == Some(r.value)
    ensures r.Err? ==> r.error == KeyError(k)
  {
    match Get(d, k)
    case Some(v) => Ok(v)
    case None => Err(KeyError(k))
  }

  /** `{**a, **b}`: the entries of `b` written over those of `a`. */
  function Merge(a: Dict, b: Dict): Dict
    decreases |b|
  {
    if b == [] then a else Merge(Put(a, b[0].0, b[0].1), b[1..])
  }

  /** No key occurs twice, as in every Python dictionary. */
  predicate UniqueKeys(d: Dict) {
    forall i, j :: 0 <= i < j < |d| ==> d[i].0 != d[j].0
  }

  lemma {:induction false} MergeGet(a: Dict, b: Dict, k: string)
    requires UniqueKeys(b)
    ensures Get(Merge(a, b), k) == if Has(b, k) then Get(b, k) else Get(a, k)
    decreases |b|
  {
    if b != [] {
      MergeGet(Put(a, b[0].0, b[0].1), b[1..], k);
      PutGet(a, b[0].0, b[0].1, k);
      if b[0].0 == k && Has(b[1..], k) {
        GetIn(b[1..], k);
        assert false;
      }
    }
  }

  /** Python truthiness. */
  predicate Truthy(v: Value) {
    match v
    case VNone => false
    case VBool(b) => b
    case VInt(i) => i != 0
    case VReal(r) => r != 0.0
    case VStr(s) => s != ""
    case VList(items) => items != []
    case VDict(entries) => entries != []
  }

  /** The numeric reading of a value, as Python arithmetic and comparison use
    * it: `bool` is a subclass of `int`. */
  function NumOf(v: Value): Option<real> {
    match v
    case VBool(b) => Some(if b then 1.0 else 0.0)
    case VInt(i) => Some(i as real)
    case VReal(r) => Some(r)
    case _ => None
  }

  /** A value used as an operand of `+`, `*`, `<`: non-numbers raise TypeError. */
  function Num(v: Value): (r: Result<real>)
    ensures r.Ok? <==> NumOf(v).Some?
    ensures r.Ok? ==> r.value == NumOf(v).value
  {
    match NumOf(v)
    case Some(x) => Ok(x)
    case None => Err(TypeError)
  }

  /** `float(v)`. Strings are not parsed: every string raises ValueError. */
  function Float(v: Value): (r: Result<real>)
    ensures r.Ok? <==> NumOf(v).Some?
    ensures r.Ok? ==> r.value == NumOf(v).value
    ensures v.VStr? ==> r == Err(ValueError)
  {
    match NumOf(v)
    case Some(x) => Ok(x)
    case None => if v.VStr? then Err(ValueError) else Err(TypeError)
  }

  /** Python `a == b`. Numbers compare by value across bool, int and float;
    * everything else compares structurally. */
  predicate PyEq(a: Value, b: Value) {
    if NumOf(a).Some? && NumOf(b).Some? then NumOf(a) == NumOf(b) else a == b
  }

  /** `v in (True, "enforced")`, the accepted values of a constraint key. */
  predicate TrueOrEnforced(v: Value) {
    PyEq(v, VBool(true)) || v == VStr("enforced")
  }

  lemma TrueOrEnforcedValues(v: Value)
    ensures TrueOrEnforced(v) <==>
      v == VBool(true) || v == VInt(1) || v == VReal(1.0) || v == VStr("enforced")
  {
  }

  function Min(a: real, b: real): real { if a <= b then a else b }
  function Max(a: real, b: real): real { if a >= b then a else b }

  /** A multiple of 1/10000: a number with at most four decimals. */
  predicate FourDecimals(x: real) {
    (x * 10000.0).Floor as real == x * 10000.0
  }

  /** `round(x, 4)`: the nearest multiple of 1/10000, a tie going to the
    * even multiple. */
  function Round4(x: real): (r: real)
    ensures -0.00005 <= r - x <= 0.00005
    ensures FourDecimals(r)
  {
    var y := x * 10000.0;
    var f := y.Floor;
    var frac := y - f as real;
    var n := if frac > 0.5 then f + 1 else if frac < 0.5 then f else if f % 2 == 0 then f else f + 1;
    (n as real) / 10000.0
  }

  /** A number that already has four decimals is left as it is, and so
    * rounding twice is rounding once. */
  lemma Round4Fixes(x: real)
    requires FourDecimals(x)
    ensures Round4(x) == x
  {
  }

  lemma Round4Idempotent(x: real)
    ensures Round4(Round4(x)) == Round4(x)
  {
    Round4Fixes(Round4(x));
  }

  /** `max(lo, min(hi, x))` */
  function Clamp(x: real, lo: real, hi: real): (r: real)
    requires lo <= hi
    ensures lo <= r <= hi
    ensures lo <= x <= hi ==> r == x
  {
    Max(lo, Min(hi, x))
  }

  /** `max(0.0, min(1.0, x))` */
  function Clamp01(x: real): (r: real)
    ensures 0.0 <= r <= 1.0
    ensures 0.0 <= x <= 1.0 ==> r == x
    ensures x <= 0.0 ==> r == 0.0
    ensures x >= 1.0 ==> r == 1.0
  {
    Clamp(x, 0.0, 1.0)
  }

  /** Python `int(x)` for a float: truncation toward zero. */
  function Trunc(x: real): (r: int)
    ensures x >= 0.0 ==> r as real <= x < r as real + 1.0
    ensures x < 0.0 ==> r as real - 1.0 < x <= r as real
  {
    if x >= 0.0 then x.Floor else -((-x).Floor)
  }

  function LowerChar(c: char): char {
    if 'A' <= c <= 'Z' then (c as int + 32) as char else c
  }

  function UpperChar(c: char): char {
    if 'a' <= c <= 'z' then (c as int - 32) as char else c
  }

  /** `s.lower()` on ASCII letters. */
  function Lower(s: string): (r: string)
    ensures |r| == |s| && forall i :: 0 <= i < |s| ==> r[i] == LowerChar(s[i])
  {
    seq(|s|, i requires 0 <= i < |s| => LowerChar(s[i]))
  }

  /** `s.upper()` on ASCII letters. */
  function Upper(s: string): (r: string)
    ensures |r| == |s| && forall i :: 0 <= i < |s| ==> r[i] == UpperChar(s[i])
  {
    seq(|s|, i requires 0 <= i < |s| => UpperChar(s[i]))
  }

  /** `sub in s` for strings. */
  predicate Contains(s: string, sub: string) {
    exists i :: 0 <= i <= |s| && sub <= s[i..]
  }
}

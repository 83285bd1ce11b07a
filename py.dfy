/** Python values, exceptions and callables as the rest of the model sees them. */
module Py {

  /** A Python object as far as the builder inspects it. */
  datatype Value =
    | PyNone
    | PyBool(b: bool)
    | PyInt(i: int)
    | PyStr(s: string)
    | PyObj(id: nat)            // an instance of some user class (always truthy)
    | PyList(items: seq<Value>)
    | PyDict(pairs: seq<(Value, Value)>)   // key-value pairs in insertion order

  /** The exceptions the library raises or lets through. */
  datatype Exception =
    | TypeError
    | AttributeError
    | NotImplementedError
    | KeyError
    | NameError
    | ValueError
    | Raised(what: string)      // anything a user callable raises

  datatype Option<T> = None | Some(value: T)

  datatype Result<T> = Ok(value: T) | Err(error: Exception)

  /** A Python function: its `__name__`, its `__doc__` and what calling it does. */
  datatype PyFunc = PyFunc(name: string, doc: Value, impl: seq<Value> -> Result<Value>)

  /** Python truth testing (`bool(v)`). */
  predicate Truthy(v: Value)
  {
    match v
    case PyNone => false
    case PyBool(b) => b
    case PyInt(i) => i != 0
    case PyStr(s) => s != ""
    case PyObj(_) => true
    case PyList(items) => items != []
    case PyDict(pairs) => pairs != []
  }

  /** Python `a or b`. */
  function Or(a: Value, b: Value): (r: Value)
    ensures Truthy(a) ==> r == a
    ensures !Truthy(a) ==> r == b
  {
    if Truthy(a) then a else b
  }

  /** The integer a bool or an int stands for (`True == 1`, `False == 0`). */
  function Numeric(v: Value): Option<int>
  {
    match v
    case PyBool(b) => Some(if b then 1 else 0)
    case PyInt(i) => Some(i)
    case _ => None
  }

  /** Python `a == b` for the values the library compares: numbers compare by value, everything else structurally. */
  predicate PyEq(a: Value, b: Value)
  {
    if Numeric(a).Some? && Numeric(b).Some? then Numeric(a) == Numeric(b) else a == b
  }

  /** Python `v in xs` for a tuple or list `xs`. */
  predicate PyIn(v: Value, xs: seq<Value>)
  {
    exists i :: 0 <= i < |xs| && PyEq(v, xs[i])
  }

  /** Python `v in (True, False)`. */
  predicate IsBoolLike(v: Value)
  {
    PyIn(v, [PyBool(true), PyBool(false)])
  }

  lemma BoolLikeValues(v: Value)
    ensures IsBoolLike(v) <==> v in {PyBool(true), PyBool(false), PyInt(0), PyInt(1)}
  {
    if IsBoolLike(v) {
      var i :| 0 <= i < 2 && PyEq(v, [PyBool(true), PyBool(false)][i]);
    } else {
      assert !PyEq(v, [PyBool(true), PyBool(false)][0]);
      assert !PyEq(v, [PyBool(true), PyBool(false)][1]);
    }
  }

  /** `==` is an equivalence on the values the library compares. */
  lemma PyEqEquivalence(a: Value, b: Value, c: Value)
    ensures PyEq(a, a)
    ensures PyEq(a, b) ==> PyEq(b, a)
    ensures PyEq(a, b) && PyEq(b, c) ==> PyEq(a, c)
  {
  }

  /** The keys of a dict, in insertion order. */
  function Keys(d: seq<(Value, Value)>): (ks: seq<Value>)
    ensures |ks| == |d|
    ensures forall i :: 0 <= i < |d| ==> ks[i] == d[i].0
  {
    seq(|d|, i requires 0 <= i < |d| => d[i].0)
  }

  /** No two of the keys are equal, as in every Python dict. */
  predicate Distinct(ks: seq<Value>)
  {
    forall i, j :: 0 <= i < j < |ks| ==> !PyEq(ks[i], ks[j])
  }

  /** Where a key equal to `k` sits among the keys: the first such position, if any. */
  function IndexOf(ks: seq<Value>, k: Value): (r: Option<nat>)
    ensures r.None? <==> forall i :: 0 <= i < |ks| ==> !PyEq(ks[i], k)
    ensures r.Some? ==> r.value < |ks| && PyEq(ks[r.value], k)
    ensures r.Some? ==> forall i :: 0 <= i < r.value ==> !PyEq(ks[i], k)
  {
    if ks == [] then None
    else if PyEq(ks[0], k) then Some(0)
    else match IndexOf(ks[1..], k)
      case None => None
      case Some(j) => Some(j + 1)
  }

  /** A key not equal to `k` added last does not move where `k` is found. */
  lemma {:induction false} IndexOfSnoc(ks: seq<Value>, x: Value, k: Value)
    requires !PyEq(x, k)
    ensures IndexOf(ks + [x], k) == IndexOf(ks, k)
  {
    if ks != [] {
      assert (ks + [x])[1..] == ks[1..] + [x];
      IndexOfSnoc(ks[1..], x, k);
    }
  }

  /** Equal keys are found at the same place. */
  lemma {:induction false} IndexOfEqual(ks: seq<Value>, a: Value, b: Value)
    requires PyEq(a, b)
    ensures IndexOf(ks, a) == IndexOf(ks, b)
  {
    if ks != [] {
      PyEqEquivalence(ks[0], a, b);
      PyEqEquivalence(ks[0], b, a);
      PyEqEquivalence(a, b, a);
      IndexOfEqual(ks[1..], a, b);
    }
  }

  /** `d.get(k)`: the value stored under the key equal to `k`. */
  function DictGet(d: seq<(Value, Value)>, k: Value): (r: Option<Value>)
    ensures r.None? <==> IndexOf(Keys(d), k).None?
    ensures r.Some? ==> r.value == d[IndexOf(Keys(d), k).value].1
  {
    match IndexOf(Keys(d), k)
    case None => None
    case Some(i) => Some(d[i].1)
  }

  /**
   * `d[k] = v`: a key equal to `k` keeps its place, and the key object stored first, and takes
   * the new value; a new key goes last.
   */
  function DictSet(d: seq<(Value, Value)>, k: Value, v: Value): (r: seq<(Value, Value)>)
  {
    match IndexOf(Keys(d), k)
    case None => d + [(k, v)]
    case Some(i) => d[i := (d[i].0, v)]
  }

  /** Setting a key keeps the keys distinct, and adds `k` last exactly when no equal key was there. */
  lemma DictSetSpec(d: seq<(Value, Value)>, k: Value, v: Value)
    ensures IndexOf(Keys(d), k).Some? ==> Keys(DictSet(d, k, v)) == Keys(d)
    ensures IndexOf(Keys(d), k).None? ==> Keys(DictSet(d, k, v)) == Keys(d) + [k]
    ensures Distinct(Keys(d)) ==> Distinct(Keys(DictSet(d, k, v)))
  {
    if IndexOf(Keys(d), k).None? {
      assert Keys(DictSet(d, k, v)) == Keys(d) + [k];
    } else {
      assert Keys(DictSet(d, k, v)) == Keys(d);
    }
  }

  /** After `d[k] = v`, every key equal to `k` finds `v`, and every other key finds what it found before. */
  lemma DictSetGet(d: seq<(Value, Value)>, k: Value, v: Value, k': Value)
    ensures PyEq(k, k') ==> DictGet(DictSet(d, k, v), k') == Some(v)
    ensures !PyEq(k, k') ==> DictGet(DictSet(d, k, v), k') == DictGet(d, k')
  {
    if PyEq(k, k') {
      DictSetGetEqual(d, k, v, k');
    } else {
      DictSetGetOther(d, k, v, k');
    }
  }

  lemma DictSetGetEqual(d: seq<(Value, Value)>, k: Value, v: Value, k': Value)
    requires PyEq(k, k')
    ensures DictGet(DictSet(d, k, v), k') == Some(v)
  {
    var r := DictSet(d, k, v);
    DictSetSpec(d, k, v);
    PyEqEquivalence(k, k, k);
    IndexOfEqual(Keys(r), k, k');
    if IndexOf(Keys(d), k).None? {
      assert PyEq(Keys(r)[|d|], k);
    }
  }

  lemma DictSetGetOther(d: seq<(Value, Value)>, k: Value, v: Value, k': Value)
    requires !PyEq(k, k')
    ensures DictGet(DictSet(d, k, v), k') == DictGet(d, k')
  {
    DictSetSpec(d, k, v);
    match IndexOf(Keys(d), k)
    case None =>
      IndexOfSnoc(Keys(d), k, k');
    case Some(i) =>
      PyEqEquivalence(d[i].0, k, k');
      PyEqEquivalence(k, d[i].0, k');
  }
}

/** Shared vocabulary: optional values, results that carry a Python exception,
    and a small universe of Python values for the places where the toolkit
    inspects the run-time type of an argument. */
module Wrappers {

  datatype Option<+T> = None | Some(value: T)

  /** The Python exceptions the modelled code raises (or lets escape). */
  datatype Exception =
    | TypeError
    | ValueError
    | KeyError
    | IndexError
    | NameError
    | ZeroDivisionError
    | NotImplementedError
    | AttributeError

  /** Either a value, or the exception the source raises instead. */
  datatype Result<+T> = Ok(value: T) | Raise(exc: Exception)

  /** A Python value, as far as the modelled code distinguishes values:
      `None`, the scalar builtins, strings, a list (`isList`) or tuple, and
      an instance of some other class, named by its class. */
  datatype PyValue =
    | PyNone
    | PyBool(b: bool)
    | PyInt(i: int)
    | PyFloat(f: real)
    | PyStr(s: string)
    | PySeq(items: seq<PyValue>, isList: bool)
    | PyObject(cls: string)

  /** A Python type as used in `isinstance` checks. */
  datatype PyType = TBool | TInt | TFloat | TStr | TSeq | TClass(name: string)

  /** `isinstance(v, t)`; `bool` is a subclass of `int` in Python. */
  predicate IsInstance(v: PyValue, t: PyType)
  {
    match t
    case TBool => v.PyBool?
    case TInt => v.PyInt? || v.PyBool?
    case TFloat => v.PyFloat?
    case TStr => v.PyStr?
    case TSeq => v.PySeq?
    case TClass(name) => v.PyObject? && v.cls == name
  }

  /** Whether `hash(v)` succeeds: a list is unhashable, and so is a tuple
      holding an unhashable element; the other values hash. */
  predicate Hashable(v: PyValue)
  {
    match v
    case PySeq(items, isList) => !isList && forall i :: 0 <= i < |items| ==> Hashable(items[i])
    case _ => true
  }

  /** Python's `int(r)` on a float: truncation toward zero. */
  function Trunc(r: real): (t: int)
    ensures r >= 0.0 ==> t as real <= r < t as real + 1.0
    ensures r < 0.0 ==> t as real - 1.0 < r <= t as real
  {
    if r >= 0.0 then r.Floor else -((-r).Floor)
  }

  /** No value occurs twice in `s`. */
  predicate NoDuplicates<T(==)>(s: seq<T>)
  {
    forall i, j :: 0 <= i < j < |s| ==> s[i] != s[j]
  }
}

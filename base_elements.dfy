/** The typed attribute descriptors of tk_builder/base_elements.py: the
    `_verify_*` value checks, the tuple-length specification, and descriptor
    objects that keep one value per owning instance. */
module BaseElements {
  import opened Wrappers

  /** The parts of Python's builtins the model cannot see: parsing a string
      as an `int` or a `float`, and `str()` of a value that is not a string. */
  datatype Builtins = Builtins(
    parseInt: string -> Option<int>,
    parseFloat: string -> Option<real>,
    render: PyValue -> string)

  // ---------------------------------------------------------------------
  // The builtin conversions the verifiers apply

  /** `bool(v)`: Python truthiness (an object without `__bool__` is true). */
  predicate Truthy(v: PyValue)
  {
    match v
    case PyNone => false
    case PyBool(b) => b
    case PyInt(i) => i != 0
    case PyFloat(f) => f != 0.0
    case PyStr(s) => |s| > 0
    case PySeq(items, _) => |items| > 0
    case PyObject(_) => true
  }

  /** `int(v)`: a bool is 0 or 1, a float is truncated toward zero, a string
      is parsed, and a sequence, an object or `None` is a `TypeError`. */
  function ToInt(v: PyValue, b: Builtins): (r: Result<int>)
    ensures v.PyInt? ==> r == Ok(v.i)
    ensures r.Raise? ==> (v.PyStr? && r.exc == ValueError) || (!v.PyStr? && r.exc == TypeError)
  {
    match v
    case PyBool(x) => Ok(if x then 1 else 0)
    case PyInt(i) => Ok(i)
    case PyFloat(f) => Ok(Trunc(f))
    case PyStr(s) => (match b.parseInt(s) case Some(i) => Ok(i) case None => Raise(ValueError))
    case _ => Raise(TypeError)
  }

  /** `float(v)`. */
  function ToFloat(v: PyValue, b: Builtins): (r: Result<real>)
    ensures v.PyFloat? ==> r == Ok(v.f)
    ensures v.PyInt? ==> r == Ok(v.i as real)
    ensures r.Raise? ==> (v.PyStr? && r.exc == ValueError) || (!v.PyStr? && r.exc == TypeError)
  {
    match v
    case PyBool(x) => Ok(if x then 1.0 else 0.0)
    case PyInt(i) => Ok(i as real)
    case PyFloat(f) => Ok(f)
    case PyStr(s) => (match b.parseFloat(s) case Some(f) => Ok(f) case None => Raise(ValueError))
    case _ => Raise(TypeError)
  }

  /** `str(v)`: a string is itself. */
  function ToStr(v: PyValue, b: Builtins): (s: string)
    ensures v.PyStr? ==> s == v.s
  {
    if v.PyStr? then v.s else b.render(v)
  }

  /** `iter(v)`: the elements of a list or tuple, the one-character strings
      of a string, and a `TypeError` for anything else. */
  function Iterate(v: PyValue): (r: Result<seq<PyValue>>)
    ensures r.Raise? <==> !(v.PySeq? || v.PyStr?)
    ensures r.Raise? ==> r.exc == TypeError
    ensures v.PySeq? ==> r == Ok(v.items)
    ensures v.PyStr? ==> r.Ok? && |r.value| == |v.s| && forall i :: 0 <= i < |v.s| ==> r.value[i] == PyStr([v.s[i]])
  {
    match v
    case PySeq(items, _) => Ok(items)
    case PyStr(s) => Ok(seq(|s|, i requires 0 <= i < |s| => PyStr([s[i]])))
    case _ => Raise(TypeError)
  }

  // ---------------------------------------------------------------------
  // The scalar verifiers; `None` always means "use the default"

  /** `_verify_bool`. */
  function VerifyBool(val: PyValue, default: PyValue): (r: PyValue)
    ensures val.PyNone? ==> r == default
    ensures !val.PyNone? ==> r.PyBool? && (r.b <==> Truthy(val))
    ensures val.PyBool? ==> r == val
  {
    if val.PyNone? then default else PyBool(Truthy(val))
  }

  /** `_verify_int`. */
  function VerifyInt(val: PyValue, default: PyValue, b: Builtins): (r: Result<PyValue>)
    ensures val.PyNone? ==> r == Ok(default)
    ensures !val.PyNone? && r.Ok? ==> r.value.PyInt?
    ensures val.PyInt? ==> r == Ok(val)
    ensures val.PyBool? ==> r == Ok(PyInt(if val.b then 1 else 0))
    ensures val.PyFloat? ==> r.Ok? && (val.f >= 0.0 ==> 0 <= r.value.i && r.value.i as real <= val.f < r.value.i as real + 1.0)
    ensures val.PyFloat? ==> r.Ok? && (val.f < 0.0 ==> r.value.i <= 0 && r.value.i as real - 1.0 < val.f <= r.value.i as real)
    ensures val.PySeq? || val.PyObject? ==> r == Raise(TypeError)
  {
    if val.PyNone? then Ok(default)
    else match ToInt(val, b)
      case Ok(i) => Ok(PyInt(i))
      case Raise(e) => Raise(e)
  }

  /** `_verify_float`. */
  function VerifyFloat(val: PyValue, default: PyValue, b: Builtins): (r: Result<PyValue>)
    ensures val.PyNone? ==> r == Ok(default)
    ensures !val.PyNone? && r.Ok? ==> r.value.PyFloat?
    ensures val.PyFloat? ==> r == Ok(val)
    ensures val.PyInt? ==> r == Ok(PyFloat(val.i as real))
    ensures val.PySeq? || val.PyObject? ==> r == Raise(TypeError)
  {
    if val.PyNone? then Ok(default)
    else match ToFloat(val, b)
      case Ok(f) => Ok(PyFloat(f))
      case Raise(e) => Raise(e)
  }

  /** `_verify_str`: a string is returned unchanged, anything else through `str()`. */
  function VerifyStr(val: PyValue, default: PyValue, b: Builtins): (r: PyValue)
    ensures val.PyNone? ==> r == default
    ensures !val.PyNone? ==> r.PyStr?
    ensures val.PyStr? ==> r == val
  {
    if val.PyNone? then default
    else PyStr(ToStr(val, b))
  }

  /** `_verify_type`: an instance of `t` is returned unchanged; anything else
      but `None` is a `TypeError`. */
  function VerifyType(val: PyValue, default: PyValue, t: PyType): (r: Result<PyValue>)
    ensures val.PyNone? ==> r == Ok(default)
    ensures !val.PyNone? ==> (r == Ok(val) <==> IsInstance(val, t))
    ensures !val.PyNone? ==> (r == Raise(TypeError) <==> !IsInstance(val, t))
  {
    if val.PyNone? then Ok(default)
    else if IsInstance(val, t) then Ok(val)
    else Raise(TypeError)
  }

  // ---------------------------------------------------------------------
  // Tuple lengths

  /** The `length` argument of the tuple verifiers: `None`, an `int`, a
      `tuple` (meant to be an inclusive `(lower, upper)` pair), a `list` of
      allowed lengths, or a value of any other type. */
  datatype LengthSpec =
    | NoLimit
    | Exactly(n: int)
    | Between(bounds: seq<int>)
    | OneOf(lengths: seq<int>)
    | Unsupported

  /** `_validate_tuple_length`: whether a tuple of length `n` complies; a
      malformed pair is a `ValueError` and a spec of another type a `TypeError`. */
  function ValidateTupleLength(n: nat, length: LengthSpec): (r: Result<bool>)
    ensures r == Raise(TypeError) <==> length.Unsupported?
    ensures r == Raise(ValueError) <==>
      length.Between? && (|length.bounds| != 2 || length.bounds[0] >= length.bounds[1])
    ensures r == Ok(true) <==>
      || length.NoLimit?
      || (length.Exactly? && n == length.n)
      || (length.Between? && |length.bounds| == 2 && length.bounds[0] <= n <= length.bounds[1]
          && length.bounds[0] < length.bounds[1])
      || (length.OneOf? && n in length.lengths)
  {
    match length
    case NoLimit => Ok(true)
    case Exactly(m) => Ok(n == m)
    case Between(bounds) =>
      if |bounds| != 2 || bounds[0] >= bounds[1] then Raise(ValueError)
      else Ok(bounds[0] <= n <= bounds[1])
    case OneOf(lengths) => Ok(n in lengths)
    case Unsupported => Raise(TypeError)
  }

  // ---------------------------------------------------------------------
  // The tuple verifiers

  /** Converting every element in order; the first failure is raised. */
  function ConvertAll(items: seq<PyValue>, conv: PyValue -> Result<PyValue>): (r: Result<seq<PyValue>>)
    ensures r.Ok? <==> forall i :: 0 <= i < |items| ==> conv(items[i]).Ok?
    ensures r.Ok? ==> |r.value| == |items| && forall i :: 0 <= i < |items| ==> conv(items[i]) == Ok(r.value[i])
  {
    if |items| == 0 then Ok([])
    else match conv(items[0])
      case Raise(e) => Raise(e)
      case Ok(x) =>
        match ConvertAll(items[1..], conv)
        case Raise(e) => Raise(e)
        case Ok(rest) =>
          assert forall i :: 1 <= i < |items| ==> items[i] == items[1..][i - 1];
          Ok([x] + rest)
  }

  /** The exception `ConvertAll` raises is that of the first element that fails. */
  lemma {:induction false} ConvertAllFirstError(items: seq<PyValue>, conv: PyValue -> Result<PyValue>, k: nat)
    requires k < |items| && conv(items[k]).Raise?
    requires forall j :: 0 <= j < k ==> conv(items[j]).Ok?
    ensures ConvertAll(items, conv) == Raise(conv(items[k]).exc)
  {
    if k > 0 {
      assert conv(items[0]).Ok?;
      assert items[1..][k - 1] == items[k];
      ConvertAllFirstError(items[1..], conv, k - 1);
    }
  }

  /** `_verify_int_tuple`, `_verify_float_tuple`, `_verify_string_tuple` and
      `_verify_typed_tuple`, which differ only in `conv`. */
  function VerifiedTuple(val: PyValue, default: PyValue, conv: PyValue -> Result<PyValue>, length: LengthSpec): (r: Result<PyValue>)
    ensures val.PyNone? ==> r == Ok(default)
    ensures !val.PyNone? && r.Ok? ==>
      Iterate(val).Ok? && r.value.PySeq? && |r.value.items| == |Iterate(val).value|
      && (forall i :: 0 <= i < |r.value.items| ==> conv(Iterate(val).value[i]) == Ok(r.value.items[i]))
      && ValidateTupleLength(|r.value.items|, length) == Ok(true)
    ensures (!val.PyNone? && Iterate(val).Ok? && ConvertAll(Iterate(val).value, conv).Ok?
             && ValidateTupleLength(|Iterate(val).value|, length) == Ok(false)) ==> r == Raise(ValueError)
    ensures (!val.PyNone? && Iterate(val).Ok? && ConvertAll(Iterate(val).value, conv).Ok?
             && ValidateTupleLength(|Iterate(val).value|, length) == Ok(true))
            ==> r == Ok(PySeq(ConvertAll(Iterate(val).value, conv).value, false))
    ensures !val.PyNone? && Iterate(val).Raise? ==> r == Raise(TypeError)
    ensures !val.PyNone? && Iterate(val).Ok? && ConvertAll(Iterate(val).value, conv).Raise?
            ==> r == Raise(ConvertAll(Iterate(val).value, conv).exc)
    ensures (!val.PyNone? && Iterate(val).Ok? && ConvertAll(Iterate(val).value, conv).Ok?
             && ValidateTupleLength(|Iterate(val).value|, length).Raise?)
            ==> r == Raise(ValidateTupleLength(|Iterate(val).value|, length).exc)
  {
    if val.PyNone? then Ok(default)
    else match Iterate(val)
      case Raise(e) => Raise(e)
      case Ok(items) =>
        match ConvertAll(items, conv)
        case Raise(e) => Raise(e)
        case Ok(temp) =>
          match ValidateTupleLength(|temp|, length)
          case Raise(e) => Raise(e)
          case Ok(fits) => if fits then Ok(PySeq(temp, false)) else Raise(ValueError)
  }

  /** The element loop shared by the tuple verifiers. */
  method VerifyTuple(val: PyValue, default: PyValue, conv: PyValue -> Result<PyValue>, length: LengthSpec)
    returns (r: Result<PyValue>)
    ensures r == VerifiedTuple(val, default, conv, length)
  {
    if val.PyNone? {
      return Ok(default);
    }
    var it := Iterate(val);
    if it.Raise? {
      return Raise(it.exc);
    }
    var items := it.value;
    var temp: seq<PyValue> := [];
    var i := 0;
    while i < |items|
      invariant 0 <= i <= |items| && |temp| == i
      invariant forall j :: 0 <= j < i ==> conv(items[j]) == Ok(temp[j])
    {
      var c := conv(items[i]);
      if c.Raise? {
        ConvertAllFirstError(items, conv, i);
        return Raise(c.exc);
      }
      temp := temp + [c.value];
      i := i + 1;
    }
    var all := ConvertAll(items, conv);
    assert all.Ok?;
    assert forall j :: 0 <= j < |items| ==> all.value[j] == temp[j];
    assert all.value == temp;
    var fits := ValidateTupleLength(|temp|, length);
    if fits.Raise? {
      return Raise(fits.exc);
    }
    if !fits.value {
      return Raise(ValueError);
    }
    return Ok(PySeq(temp, false));
  }

  /** The element conversions of the four tuple verifiers. */
  function IntConv(b: Builtins): PyValue -> Result<PyValue>
  {
    x => match ToInt(x, b) case Ok(i) => Ok(PyInt(i)) case Raise(e) => Raise(e)
  }

  function FloatConv(b: Builtins): PyValue -> Result<PyValue>
  {
    x => match ToFloat(x, b) case Ok(f) => Ok(PyFloat(f)) case Raise(e) => Raise(e)
  }

  function StrConv(b: Builtins): PyValue -> Result<PyValue>
  {
    x => Ok(PyStr(ToStr(x, b)))
  }

  function TypeCheck(t: PyType): PyValue -> Result<PyValue>
  {
    x => if IsInstance(x, t) then Ok(x) else Raise(TypeError)
  }

  /** `_verify_typed_tuple`, which the corrected `TypedTupleDescriptor.__set__`
      calls with the descriptor's own type: a tuple of the right length whose
      elements are all instances comes back unchanged. */
  lemma {:induction false} TypedTupleKeepsInstances(items: seq<PyValue>, default: PyValue, t: PyType, length: LengthSpec)
    requires ValidateTupleLength(|items|, length) == Ok(true)
    requires forall i :: 0 <= i < |items| ==> IsInstance(items[i], t)
    ensures VerifiedTuple(PySeq(items, false), default, TypeCheck(t), length) == Ok(PySeq(items, false))
  {
    var r := ConvertAll(items, TypeCheck(t));
    assert r.Ok?;
    assert r.value == items;
  }

  /** `_verify_typed_tuple` raises `TypeError` at the first element that is
      not an instance, whatever the length. */
  lemma {:induction false} TypedTupleRefusesStranger(items: seq<PyValue>, isList: bool, default: PyValue, t: PyType, length: LengthSpec, k: nat)
    requires k < |items| && !IsInstance(items[k], t)
    requires forall j :: 0 <= j < k ==> IsInstance(items[j], t)
    ensures VerifiedTuple(PySeq(items, isList), default, TypeCheck(t), length) == Raise(TypeError)
  {
    ConvertAllFirstError(items, TypeCheck(t), k);
    assert Iterate(PySeq(items, isList)) == Ok(items);
  }

  /** `TypedTupleDescriptor.__set__` as written: the call passes the bare
      name `the_type`, which is not defined in the module, so every value
      other than `None` raises `NameError` before anything is stored. */
  function TypedTupleSetAsWritten(value: PyValue, default: PyValue): (r: Result<PyValue>)
    ensures value.PyNone? ==> r == Ok(default)
    ensures !value.PyNone? ==> r == Raise(NameError)
  {
    if value.PyNone? then Ok(default) else Raise(NameError)
  }

  /** A one-element tuple of ints that the descriptor is declared to accept is
      refused as written. */
  lemma {:induction false} TypedTupleRefusesValidTuple()
    ensures TypedTupleSetAsWritten(PySeq([PyInt(7)], false), PyNone) == Raise(NameError)
    ensures VerifiedTuple(PySeq([PyInt(7)], false), PyNone, TypeCheck(TInt), NoLimit) == Ok(PySeq([PyInt(7)], false))
  {
    TypedTupleKeepsInstances([PyInt(7)], PyNone, TInt, NoLimit);
  }

  // ---------------------------------------------------------------------
  // Descriptors

  /** Which descriptor class: `BooleanDescriptor`, `IntegerDescriptor`,
      `FloatDescriptor`, `StringDescriptor`, `StringEnumDescriptor`,
      `TypedDescriptor` and the four tuple descriptors. */
  datatype Kind =
    | BoolKind
    | IntKind
    | FloatKind
    | StrKind
    | StringEnumKind(values: seq<string>)
    | TypedKind(t: PyType)
    | IntTupleKind(intLength: LengthSpec)
    | FloatTupleKind(floatLength: LengthSpec)
    | StringTupleKind(strLength: LengthSpec)
    | TypedTupleKind(elemType: PyType, typedLength: LengthSpec)

  /** `v` is one of the allowed strings of a `StringEnumDescriptor`. */
  predicate EnumMember(v: PyValue, values: seq<string>)
  {
    v.PyStr? && v.s in values
  }

  /** The default a descriptor keeps: `StringEnumDescriptor` drops a default
      that is not among its values. */
  function KeptDefault(kind: Kind, default: PyValue): (d: PyValue)
    ensures kind.StringEnumKind? ==> d.PyNone? || EnumMember(d, kind.values)
    ensures kind.StringEnumKind? && EnumMember(default, kind.values) ==> d == default
    ensures kind.StringEnumKind? && !EnumMember(default, kind.values) ==> d == PyNone
    ensures !kind.StringEnumKind? ==> d == default
  {
    if kind.StringEnumKind? && !EnumMember(default, kind.values) then PyNone else default
  }

  /** What `StringEnumDescriptor.__set__` stores for the verified string `val`. */
  function EnumChoice(values: seq<string>, default: PyValue, val: string): (v: PyValue)
    ensures val in values ==> v == PyStr(val)
    ensures val !in values && !default.PyNone? ==> v == default
    ensures val !in values && default.PyNone? ==> v == PyStr(val)
  {
    if val in values then PyStr(val)
    else if !default.PyNone? then default
    else PyStr(val)
  }

  /** The value `__set__` stores (or the exception it raises) for each
      descriptor class; `None` stores the default in every class. */
  function StoredValue(kind: Kind, default: PyValue, value: PyValue, b: Builtins): (r: Result<PyValue>)
    ensures value.PyNone? ==> r == Ok(default)
    ensures kind.StringEnumKind? ==> r.Ok?
    ensures kind.StringEnumKind? && !value.PyNone? && EnumMember(value, kind.values) ==> r == Ok(value)
  {
    if value.PyNone? then Ok(default)
    else match kind
      case BoolKind => Ok(VerifyBool(value, default))
      case IntKind => VerifyInt(value, default, b)
      case FloatKind => VerifyFloat(value, default, b)
      case StrKind => Ok(VerifyStr(value, default, b))
      case StringEnumKind(values) => Ok(EnumChoice(values, default, VerifyStr(value, default, b).s))
      case TypedKind(t) => VerifyType(value, default, t)
      case IntTupleKind(l) => VerifiedTuple(value, default, IntConv(b), l)
      case FloatTupleKind(l) => VerifiedTuple(value, default, FloatConv(b), l)
      case StringTupleKind(l) => VerifiedTuple(value, default, StrConv(b), l)
      case TypedTupleKind(t, l) => VerifiedTuple(value, default, TypeCheck(t), l)
  }

  /** A `StringEnumDescriptor` stores a member of its values, or its default,
      or (only when it has no default) the string it was given. */
  lemma {:induction false} EnumStoresMemberOrFallback(values: seq<string>, default: PyValue, value: PyValue, b: Builtins)
    requires default.PyNone? || EnumMember(default, values)
    requires !value.PyNone?
    ensures var v := StoredValue(StringEnumKind(values), default, value, b).value;
      EnumMember(v, values) <==> ToStr(value, b) in values || !default.PyNone?
    ensures var v := StoredValue(StringEnumKind(values), default, value, b).value;
      !EnumMember(v, values) ==> default.PyNone? && v == PyStr(ToStr(value, b))
  {
  }

  /** Each conversion leaves its own outputs unchanged. */
  lemma {:induction false} ConvertAllFixesOutputs(items: seq<PyValue>, conv: PyValue -> Result<PyValue>)
    requires ConvertAll(items, conv).Ok?
    requires forall x :: conv(x).Ok? ==> conv(conv(x).value) == conv(x)
    ensures ConvertAll(ConvertAll(items, conv).value, conv) == ConvertAll(items, conv)
  {
    var out := ConvertAll(items, conv).value;
    forall i | 0 <= i < |out|
      ensures conv(out[i]) == Ok(out[i])
    {
      assert conv(items[i]) == Ok(out[i]);
    }
    var again := ConvertAll(out, conv);
    assert again.Ok?;
    assert again.value == out;
  }

  lemma {:induction false} TupleVerifierIdempotent(v: PyValue, default: PyValue, conv: PyValue -> Result<PyValue>, l: LengthSpec)
    requires !v.PyNone? && VerifiedTuple(v, default, conv, l).Ok?
    requires forall x :: conv(x).Ok? ==> conv(conv(x).value) == conv(x)
    ensures VerifiedTuple(VerifiedTuple(v, default, conv, l).value, default, conv, l) == VerifiedTuple(v, default, conv, l)
  {
    var items := Iterate(v).value;
    ConvertAllFixesOutputs(items, conv);
  }

  /** The element conversions map their own outputs to themselves. */
  lemma {:induction false} ConversionsFixOutputs(b: Builtins, t: PyType)
    ensures forall x :: IntConv(b)(x).Ok? ==> IntConv(b)(IntConv(b)(x).value) == IntConv(b)(x)
    ensures forall x :: FloatConv(b)(x).Ok? ==> FloatConv(b)(FloatConv(b)(x).value) == FloatConv(b)(x)
    ensures forall x :: StrConv(b)(x).Ok? ==> StrConv(b)(StrConv(b)(x).value) == StrConv(b)(x)
    ensures forall x :: TypeCheck(t)(x).Ok? ==> TypeCheck(t)(TypeCheck(t)(x).value) == TypeCheck(t)(x)
  {
  }

  /** The scalar verifiers map their own outputs to themselves. */
  lemma {:induction false} ScalarStoreIsIdempotent(kind: Kind, default: PyValue, value: PyValue, b: Builtins)
    requires kind.BoolKind? || kind.IntKind? || kind.FloatKind? || kind.StrKind? || kind.TypedKind?
    requires !value.PyNone? && StoredValue(kind, default, value, b).Ok?
    ensures StoredValue(kind, default, StoredValue(kind, default, value, b).value, b) == StoredValue(kind, default, value, b)
  {
  }

  /** An enum descriptor stores a member, or a default that is a member,
      or a string that is stored as it is. */
  lemma {:induction false} EnumStoreIsIdempotent(values: seq<string>, default: PyValue, value: PyValue, b: Builtins)
    requires !value.PyNone?
    requires default.PyNone? || EnumMember(default, values)
    ensures var kind := StringEnumKind(values);
      StoredValue(kind, default, StoredValue(kind, default, value, b).value, b) == StoredValue(kind, default, value, b)
  {
  }

  /** The tuple verifiers map their own outputs to themselves. */
  lemma {:induction false} TupleStoreIsIdempotent(kind: Kind, default: PyValue, value: PyValue, b: Builtins)
    requires kind.IntTupleKind? || kind.FloatTupleKind? || kind.StringTupleKind? || kind.TypedTupleKind?
    requires !value.PyNone? && StoredValue(kind, default, value, b).Ok?
    ensures StoredValue(kind, default, StoredValue(kind, default, value, b).value, b) == StoredValue(kind, default, value, b)
  {
    match kind
    case IntTupleKind(l) =>
      ConversionsFixOutputs(b, TInt);
      TupleVerifierIdempotent(value, default, IntConv(b), l);
    case FloatTupleKind(l) =>
      ConversionsFixOutputs(b, TInt);
      TupleVerifierIdempotent(value, default, FloatConv(b), l);
    case StringTupleKind(l) =>
      ConversionsFixOutputs(b, TInt);
      TupleVerifierIdempotent(value, default, StrConv(b), l);
    case TypedTupleKind(t, l) =>
      ConversionsFixOutputs(b, t);
      TupleVerifierIdempotent(value, default, TypeCheck(t), l);
  }

  /** Storing again a value that `__set__` stored changes nothing: every
      verifier maps its own outputs to themselves (the enum descriptor's
      default must be one of its values, as its constructor ensures). */
  lemma {:induction false} StoreIsIdempotent(kind: Kind, default: PyValue, value: PyValue, b: Builtins)
    requires !value.PyNone? && StoredValue(kind, default, value, b).Ok?
    requires kind.StringEnumKind? ==> default.PyNone? || EnumMember(default, kind.values)
    ensures StoredValue(kind, default, StoredValue(kind, default, value, b).value, b) == StoredValue(kind, default, value, b)
  {
    if kind.StringEnumKind? {
      EnumStoreIsIdempotent(kind.values, default, value, b);
    } else if kind.IntTupleKind? || kind.FloatTupleKind? || kind.StringTupleKind? || kind.TypedTupleKind? {
      TupleStoreIsIdempotent(kind, default, value, b);
    } else {
      ScalarStoreIsIdempotent(kind, default, value, b);
    }
  }

  /** The verification step of `__set__`: the tuple descriptors run the
      element loop, the others their scalar verifier. */
  method VerifyValue(kind: Kind, default: PyValue, value: PyValue, b: Builtins) returns (v: Result<PyValue>)
    ensures v == StoredValue(kind, default, value, b)
  {
    if value.PyNone? {
      return Ok(default);
    }
    match kind {
      case IntTupleKind(l) =>
        v := VerifyTuple(value, default, IntConv(b), l);
      case FloatTupleKind(l) =>
        v := VerifyTuple(value, default, FloatConv(b), l);
      case StringTupleKind(l) =>
        v := VerifyTuple(value, default, StrConv(b), l);
      case TypedTupleKind(t, l) =>
        v := VerifyTuple(value, default, TypeCheck(t), l);
      case _ =>
        v := StoredValue(kind, default, value, b);
    }
  }

  /** What reading a descriptor gives: on the class, the descriptor object
      itself; on an instance, a value. */
  datatype Read = TheDescriptor | Value(v: PyValue)

  /** A descriptor (`BasicDescriptor` and its subclasses): the attribute
      name, the class-specific checks and default, and the per-instance
      value dictionary. An owning instance is identified by a number. */
  class Descriptor {
    const name: string
    const kind: Kind
    const default: PyValue
    var data: map<nat, PyValue>

    /** The default an enum descriptor keeps is one of its values. */
    predicate Valid()
      reads this
    {
      kind.StringEnumKind? ==> default.PyNone? || EnumMember(default, kind.values)
    }

    constructor (name: string, kind: Kind, default: PyValue)
      ensures Valid()
      ensures this.name == name && this.kind == kind
      ensures this.default == KeptDefault(kind, default)
      ensures data == map[]
    {
      this.name := name;
      this.kind := kind;
      this.default := KeptDefault(kind, default);
      data := map[];
    }

    /** `__get__`: the descriptor on the class, the stored value on an
        instance, and the default on an instance that was never set. */
    function Get(instance: Option<nat>): (r: Read)
      reads this
      ensures instance.None? ==> r == TheDescriptor
      ensures instance.Some? && instance.value !in data ==> r == Value(default)
      ensures instance.Some? && instance.value in data ==> r == Value(data[instance.value])
    {
      match instance
      case None => TheDescriptor
      case Some(o) => Value(if o in data then data[o] else default)
    }

    /** `__set__`: store the verified value for `instance`, or raise and
        store nothing. */
    method Set(instance: nat, value: PyValue, b: Builtins) returns (r: Result<()>)
      requires Valid()
      modifies this
      ensures Valid()
      ensures r.Ok? <==> StoredValue(kind, default, value, b).Ok?
      ensures r.Ok? ==> data == old(data)[instance := StoredValue(kind, default, value, b).value]
      ensures r.Ok? ==> Get(Some(instance)) == Value(StoredValue(kind, default, value, b).value)
      ensures r.Raise? ==> data == old(data) && r.exc == StoredValue(kind, default, value, b).exc
      ensures forall o :: o != instance ==> Get(Some(o)) == old(Get(Some(o)))
    {
      var v := VerifyValue(kind, default, value, b);
      if v.Raise? {
        return Raise(v.exc);
      }
      data := data[instance := v.value];
      return Ok(());
    }
  }
}

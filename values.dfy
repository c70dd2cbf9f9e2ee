/** The dynamically typed values that travel through the system's `Dict[str, Any]`
    contexts: the JSON-shaped subset of Python values. */
module Values {
  import opened Results
  import opened Text

  /** A Python float: finite (exact, see README) or one of the two infinities. */
  datatype Float = Finite(r: real) | PosInfinity | NegInfinity

  datatype Value =
    | VNone
    | VBool(b: bool)
    | VInt(i: int)
    | VFloat(f: Float)
    | VStr(s: string)
    | VList(items: seq<Value>)
    | VDict(entries: map<string, Value>)

  /** A Python `Dict[str, Any]`. */
  type Dict = map<string, Value>

  /** The Python types a field rule may name in its "type" entry. */
  datatype PyType = TStr | TInt | TFloat | TBool | TList | TDict

  /** `t.__name__`. */
  function PyTypeName(t: PyType): string
  {
    match t
    case TStr => "str"
    case TInt => "int"
    case TFloat => "float"
    case TBool => "bool"
    case TList => "list"
    case TDict => "dict"
  }

  /** `type(v).__name__`, as Python's error messages print it. */
  function TypeNameOf(v: Value): string
  {
    match v
    case VNone => "NoneType"
    case VBool(_) => "bool"
    case VInt(_) => "int"
    case VFloat(_) => "float"
    case VStr(_) => "str"
    case VList(_) => "list"
    case VDict(_) => "dict"
  }

  /** `isinstance(v, t)`; `bool` is a subclass of `int` in Python. */
  predicate IsInstance(v: Value, t: PyType)
  {
    match t
    case TStr => v.VStr?
    case TInt => v.VInt? || v.VBool?
    case TFloat => v.VFloat?
    case TBool => v.VBool?
    case TList => v.VList?
    case TDict => v.VDict?
  }

  /** Python truthiness (`bool(v)`). */
  predicate Truthy(v: Value)
  {
    match v
    case VNone => false
    case VBool(b) => b
    case VInt(i) => i != 0
    case VFloat(f) => f != Finite(0.0)
    case VStr(s) => s != []
    case VList(items) => items != []
    case VDict(entries) => entries != map[]
  }

  /** `isinstance(v, (int, float))`, bools included. */
  predicate IsNumber(v: Value)
  {
    v.VBool? || v.VInt? || v.VFloat?
  }

  /** A number on the extended real line. */
  datatype Extended = Low | Mid(r: real) | High

  function ToExtended(v: Value): Extended
    requires IsNumber(v)
  {
    match v
    case VBool(b) => Mid(if b then 1.0 else 0.0)
    case VInt(i) => Mid(i as real)
    case VFloat(Finite(r)) => Mid(r)
    case VFloat(PosInfinity) => High
    case VFloat(NegInfinity) => Low
  }

  predicate ExtendedLessEq(a: Extended, b: Extended)
  {
    a == Low || b == High || (a.Mid? && b.Mid? && a.r <= b.r)
  }

  /** Python's `a <= b` on the value model: defined between numbers, a `TypeError`
      otherwise. */
  function LessEq(a: Value, b: Value): (r: Result<bool>)
    ensures r.Ok? <==> IsNumber(a) && IsNumber(b)
  {
    if IsNumber(a) && IsNumber(b) then Ok(ExtendedLessEq(ToExtended(a), ToExtended(b)))
    else Err("'<=' not supported between instances of '" + TypeNameOf(a) + "' and '" + TypeNameOf(b) + "'")
  }

  /** The keys of `required`, in their order, that `data` lacks:
      `[f for f in required if f not in data]`. */
  function MissingKeys(required: seq<string>, data: Dict): (r: seq<string>)
    ensures forall f :: f in r <==> f in required && f !in data
    ensures r == [] <==> forall f :: f in required ==> f in data
    ensures |r| <= |required|
  {
    if required == [] then []
    else if required[0] in data then MissingKeys(required[1..], data)
    else [required[0]] + MissingKeys(required[1..], data)
  }

  /** `MissingKeys` keeps the order of `required`. */
  lemma {:induction false} MissingKeysInOrder(required: seq<string>, data: Dict)
    ensures Subsequence(MissingKeys(required, data), required)
  {
    if required != [] {
      MissingKeysInOrder(required[1..], data);
      var rest := MissingKeys(required[1..], data);
      if required[0] in data {
        assert Subsequence(rest, required[1..]);
      } else {
        assert ([required[0]] + rest)[1..] == rest;
      }
    }
  }

  /** With distinct required keys, no missing key is reported twice. */
  lemma {:induction false} MissingKeysDistinct(required: seq<string>, data: Dict)
    requires Distinct(required)
    ensures Distinct(MissingKeys(required, data))
  {
    if required != [] {
      assert Distinct(required[1..]) by {
        forall i, j | 0 <= i < j < |required[1..]| ensures required[1..][i] != required[1..][j] {
          assert required[1..][i] == required[i + 1] && required[1..][j] == required[j + 1];
        }
      }
      MissingKeysDistinct(required[1..], data);
      assert required[0] !in required[1..] by {
        forall j | 0 <= j < |required[1..]| ensures required[1..][j] != required[0] {
          assert required[1..][j] == required[j + 1];
        }
      }
    }
  }
}

/** Python's view of a parsed JSON document, and the handful of built-in
    operations the pipeline applies to one: `dict.get`, truthiness, use as a
    dict key, iteration, `str()` and `float()`. The exceptions these raise
    are values of `Exception`, carried by `Result`. */
module PyJson {
  import opened Seqs

  datatype Option<T> = None | Some(value: T)

  /** The exceptions the modelled code can raise. */
  datatype Exception =
    | AttributeError          // `.get` on a value that is not a dict
    | TypeError               // iterating a non-iterable, hashing a list or dict, `float()` of a container
    | ValueError(message: string)
    | ValidationError         // a rule handed to the foreign `validate` does not hold
    | AssertionError(message: string)
    | HttpError(status: int)  // `raise_for_status` on a non-2xx response
    | OverflowError           // `float()` of an int too large for a double

  datatype Result<T> = Ok(value: T) | Err(error: Exception) {
    predicate IsFailure() { Err? }

    function PropagateFailure<U>(): Result<U>
      requires Err?
    {
      Err(error)
    }

    function Extract(): T
      requires Ok?
    {
      value
    }
  }

  /** Two steps of a loop that builds a list: the first exception wins,
      otherwise the two lists, joined. */
  function Chain<T>(first: Result<seq<T>>, second: Result<seq<T>>): Result<seq<T>> {
    match first
    case Err(e) => Err(e)
    case Ok(xs) =>
      match second
      case Err(e) => Err(e)
      case Ok(ys) => Ok(xs + ys)
  }

  /** A floating-point number, left uninterpreted: the JSON literal it was parsed
      from, or the conversion `float(n)` of an integer. */
  datatype Float = Literal(text: string) | OfInt(n: int)

  /** A JSON value as `json.loads` returns it. */
  datatype Json =
    | JNull
    | JBool(b: bool)
    | JInt(i: int)
    | JFloat(f: Float)
    | JStr(s: string)
    | JArr(items: seq<Json>)
    | JObj(fields: map<string, Json>)

  /** `d.get(key, default)` */
  function GetOr(d: map<string, Json>, key: string, default: Json): Json {
    if key in d then d[key] else default
  }

  /** `d.get(key)`, which defaults to `None` */
  function Get(d: map<string, Json>, key: string): Json {
    GetOr(d, key, JNull)
  }

  /** The dict behind a value on which the code calls `.get`; any other
      value has no `.get` attribute. */
  function AsDict(x: Json): Result<map<string, Json>> {
    if x.JObj? then Ok(x.fields) else Err(AttributeError)
  }

  /** Python truthiness (`if x:`): the falsy values are None, False, zero,
      the empty str, the empty list and the empty dict. */
  predicate Truthy(x: Json)
    ensures !Truthy(x) <==>
      x == JNull || x == JBool(false) || x == JInt(0) || (x.JFloat? && IsZero(x.f)) ||
      x == JStr("") || x == JArr([]) || x == JObj(map[])
  {
    match x
    case JNull => false
    case JBool(b) => b
    case JInt(i) => i != 0
    case JFloat(f) => !IsZero(f)
    case JStr(s) => s != ""
    case JArr(items) => items != []
    case JObj(fields) => fields != map[]
  }

  /** A float is zero when every character of its mantissa is a sign, a
      point or the digit 0. */
  predicate IsZero(f: Float) {
    match f
    case OfInt(n) => n == 0
    case Literal(text) => ZeroMantissa(text)
  }

  predicate ZeroMantissa(text: string) {
    text == [] || text[0] in "eE" || (text[0] in "+-.0" && ZeroMantissa(text[1..]))
  }

  /** A dict key: Python's `==` on the hashable values, so that `True`, `1`
      and `1.0` (from `float(1)`) are one key. */
  datatype Key = KNone | KInt(n: int) | KFloat(text: string) | KStr(s: string)

  /** The key `x` stands for in `d[x]` or `d.get(x)`; `None` when `x` is a
      list or a dict, which Python refuses to hash. */
  function HashKey(x: Json): (k: Option<Key>)
    ensures k.None? <==> x.JArr? || x.JObj?
  {
    match x
    case JNull => Some(KNone)
    case JBool(b) => Some(KInt(if b then 1 else 0))
    case JInt(i) => Some(KInt(i))
    case JFloat(f) => Some(match f case OfInt(n) => KInt(n) case Literal(t) => KFloat(t))
    case JStr(s) => Some(KStr(s))
    case JArr(_) => None
    case JObj(_) => None
  }

  /** The int a bool, an int or the float of an int stands for */
  function IntValue(x: Json): Option<int> {
    match x
    case JBool(b) => Some(if b then 1 else 0)
    case JInt(i) => Some(i)
    case JFloat(OfInt(n)) => Some(n)
    case _ => None
  }

  /** Python's `==` on the hashable values: numbers compare by value (a
      float literal only with the same literal), strs by text, and None
      equals only None. */
  predicate PyEq(x: Json, y: Json) {
    if IntValue(x).Some? || IntValue(y).Some? then IntValue(x) == IntValue(y)
    else
      match (x, y)
      case (JNull, JNull) => true
      case (JStr(s), JStr(t)) => s == t
      case (JFloat(Literal(a)), JFloat(Literal(b))) => a == b
      case _ => false
  }

  /** Two hashable values are one dict key exactly when they are `==`. */
  lemma HashKeyIsEquality(x: Json, y: Json)
    requires HashKey(x).Some? && HashKey(y).Some?
    ensures HashKey(x) == HashKey(y) <==> PyEq(x, y)
  {
  }

  /** The elements `for x in j:` visits, for a loop whose body begins with
      `x.get(...)`, as every loop of this pipeline does. A list yields its
      items. A str or a dict yields str elements, and the first `.get` on
      one raises, so only an empty one passes without an exception. Any
      other value is not iterable. */
  function LoopElements(j: Json): (r: Result<seq<Json>>)
    ensures r.Ok? <==> j.JArr? || j == JStr("") || j == JObj(map[])
    ensures r.Ok? ==> r.value == if j.JArr? then j.items else []
    ensures r.Err? ==> r.error == if j.JStr? || j.JObj? then AttributeError else TypeError
  {
    match j
    case JArr(items) => Ok(items)
    case JStr(s) => if s == "" then Ok([]) else Err(AttributeError)
    case JObj(fields) => if fields == map[] then Ok([]) else Err(AttributeError)
    case _ => Err(TypeError)
  }

  const Digits := "0123456789"

  /** The decimal digits of `n`, most significant first */
  function NatToString(n: nat): (s: string)
    ensures |s| > 0 && forall i :: 0 <= i < |s| ==> s[i] in Digits
    decreases n
  {
    if n < 10 then [Digits[n]] else NatToString(n / 10) + [Digits[n % 10]]
  }

  /** `str(i)` for an int */
  function IntToString(i: int): string {
    if i < 0 then "-" + NatToString(-i) else NatToString(i)
  }

  function DigitValue(c: char): nat {
    if '0' <= c <= '9' then (c as int - '0' as int) else 0
  }

  /** The number a string of decimal digits denotes */
  function DigitsValue(s: string): nat
    decreases |s|
  {
    if s == [] then 0 else DigitsValue(s[..|s| - 1]) * 10 + DigitValue(s[|s| - 1])
  }

  /** `int(s)` for the strings `IntToString` produces */
  function ParseInt(s: string): int {
    if |s| > 0 && s[0] == '-' then 0 - DigitsValue(s[1..]) else DigitsValue(s)
  }

  lemma {:induction false} NatToStringRoundTrip(n: nat)
    ensures DigitsValue(NatToString(n)) == n
    decreases n
  {
    var s := NatToString(n);
    if n >= 10 {
      NatToStringRoundTrip(n / 10);
      assert s[..|s| - 1] == NatToString(n / 10);
    }
  }

  /** `int(str(i)) == i`: the decimal form of an int determines it */
  lemma IntToStringRoundTrip(i: int)
    ensures ParseInt(IntToString(i)) == i
  {
    if i < 0 {
      NegativeRoundTrip(i);
    } else {
      NonNegativeRoundTrip(i);
    }
  }

  lemma NegativeRoundTrip(i: int)
    requires i < 0
    ensures ParseInt(IntToString(i)) == i
  {
    var t := NatToString(-i);
    NatToStringRoundTrip(-i);
    DropHead('-', t);
  }

  lemma NonNegativeRoundTrip(i: int)
    requires i >= 0
    ensures ParseInt(IntToString(i)) == i
  {
    var t := NatToString(i);
    NatToStringRoundTrip(i);
    DigitIsNotSign(t[0]);
  }

  lemma DigitIsNotSign(c: char)
    requires c in Digits
    ensures c != '-'
  {
  }

  /** Two ints with the same `str()` are equal, so stringified identifiers
      stay distinct. */
  lemma IntToStringInjective(a: int, b: int)
    ensures IntToString(a) == IntToString(b) ==> a == b
  {
    IntToStringRoundTrip(a);
    IntToStringRoundTrip(b);
  }

  /** `str(x)`. Exact for None, bools, ints and strs; a float renders as the
      literal it came from, and lists and dicts render as placeholders. */
  function PyStr(x: Json): (s: string)
    ensures x.JStr? ==> s == x.s
    ensures x.JInt? ==> ParseInt(s) == x.i
    ensures x == JNull ==> s == "None"
    ensures x.JBool? ==> s == (if x.b then "True" else "False")
  {
    match x
    case JNull => "None"
    case JBool(b) => if b then "True" else "False"
    case JInt(i) => IntToStringRoundTrip(i); IntToString(i)
    case JFloat(f) => (match f case Literal(t) => t case OfInt(n) => IntToString(n) + ".0")
    case JStr(s) => s
    case JArr(_) => "[...]"
    case JObj(_) => "{...}"
  }

  function Pow2(n: nat): (p: nat)
    ensures p >= 1
  {
    if n == 0 then 1 else 2 * Pow2(n - 1)
  }

  /** 2^1024 - 2^970: halfway between the largest finite double and 2^1024.
      An int at least this far from zero rounds to infinity, so `float()`
      of it raises `OverflowError`; any int nearer zero converts. */
  const FloatOverflowBound: int := Pow2(1024) - Pow2(970)

  /** Whether `float(i)` converts the int `i` without overflowing */
  predicate FitsDouble(i: int) {
    -FloatOverflowBound < i < FloatOverflowBound
  }

  lemma {:induction false} Pow2Grows(m: nat, n: nat)
    requires m <= n
    ensures Pow2(m) <= Pow2(n)
    decreases n
  {
    if m < n {
      Pow2Grows(m, n - 1);
    }
  }

  /** Every int of magnitude up to 2^1023, and so every int a double can
      hold exactly, converts without overflow. */
  lemma ModerateIntsFit(i: int)
    requires -(Pow2(1023) as int) <= i <= Pow2(1023)
    ensures FitsDouble(i)
  {
    Pow2Grows(971, 1023);
    assert Pow2(1024) == 2 * Pow2(1023);
    assert Pow2(971) == 2 * Pow2(970);
  }

  /** `float(x)` for a value that is not None. Parsing a str is CPython's
      own routine, given as `parse`; it answers None where Python raises. */
  function ToFloat(x: Json, parse: string -> Option<Float>): Result<Json> {
    match x
    case JNull => Err(TypeError)
    case JBool(b) => Ok(JFloat(OfInt(if b then 1 else 0)))
    case JInt(i) => if FitsDouble(i) then Ok(JFloat(OfInt(i))) else Err(OverflowError)
    case JFloat(f) => Ok(JFloat(f))
    case JStr(s) =>
      (match parse(s)
       case Some(f) => Ok(JFloat(f))
       case None => Err(ValueError("could not convert string to float")))
    case JArr(_) => Err(TypeError)
    case JObj(_) => Err(TypeError)
  }

  /** `float(x)` of a bool, a float or an int within the double range never
      fails and yields a float, the same float for a float; an int beyond
      the range raises `OverflowError` and nothing else does. */
  lemma ToFloatOfNumber(x: Json, parse: string -> Option<Float>)
    requires x.JInt? || x.JFloat? || x.JBool?
    ensures ToFloat(x, parse).Ok? <==> !x.JInt? || FitsDouble(x.i)
    ensures ToFloat(x, parse).Ok? ==> ToFloat(x, parse).value.JFloat?
    ensures ToFloat(x, parse).Err? ==> ToFloat(x, parse).error == OverflowError
    ensures x.JFloat? ==> ToFloat(x, parse).value == x
  {
  }

  /** The declared column types of the validation rules */
  datatype ColumnType = IntColumn | StringColumn | DoubleColumn

  /** A column value agrees with its declared type; nullness is a rule of
      its own. */
  predicate HasType(x: Json, t: ColumnType) {
    x.JNull? ||
    match t
    case IntColumn => x.JInt?
    case StringColumn => x.JStr?
    case DoubleColumn => x.JFloat? || x.JInt?
  }
}

/**
 * The controller's error kinds (controller/src/error.rs): plain data, carried
 * by the value converter below.
 */
module ControllerErrors {
  datatype ErrorKind =
    | NotFoundById(id: string)
    | NotFoundByName(name: string)
    | NotFoundByCustom(key: string, val: string)
    | NotImplemented
    | BsonConvert
    | ValueConvert(message: string)
    | CastingValue(target: string)
    | UpdateRatingFailed(user: string, item: string)
    | InsertRatingFailed(user: string, item: string)
}

/**
 * The lookup key of controller/src/searchby.rs and its `Display`.
 */
module SearchKeys {
  import opened Wrappers

  datatype SearchBy = Id(id: string) | Name(name: string) | Custom(key: string, val: string) {
    /** The word written before the parenthesis. */
    function Key(): string {
      match this
      case Id(_) => "id"
      case Name(_) => "name"
      case Custom(key, _) => key
    }

    /** The text written inside the parenthesis. */
    function Val(): string {
      match this
      case Id(id) => id
      case Name(name) => name
      case Custom(_, val) => val
    }
  }

  /** `Display for SearchBy`: `id(..)`, `name(..)`, or the custom key followed by `(..)`. */
  function Display(sb: SearchBy): (r: string)
    ensures r == sb.Key() + "(" + sb.Val() + ")"
  {
    match sb
    case Id(id) => "id(" + id + ")"
    case Name(name) => "name(" + name + ")"
    case Custom(key, val) => key + "(" + val + ")"
  }

  /** The position of the first `c` in `s`, if any. */
  function IndexOf(s: string, c: char): (r: Option<nat>)
    ensures r.Some? ==> r.value < |s| && s[r.value] == c && c !in s[..r.value]
    ensures r.None? ==> c !in s
  {
    if s == [] then None
    else if s[0] == c then Some(0)
    else match IndexOf(s[1..], c)
      case None => None
      case Some(i) => assert s[..i + 1] == [s[0]] + s[1..][..i]; Some(i + 1)
  }

  /** Reads a displayed key back: the text before the first `(`, and the text between it and a final `)`. */
  function Undisplay(s: string): Option<(string, string)> {
    match IndexOf(s, '(')
    case None => None
    case Some(i) =>
      if |s| >= i + 2 && s[|s| - 1] == ')' then Some((s[..i], s[i + 1..|s| - 1])) else None
  }

  /** The display can be read back into key and value whenever the key has no `(`. */
  lemma UndisplayDisplay(sb: SearchBy)
    requires '(' !in sb.Key()
    ensures Undisplay(Display(sb)) == Some((sb.Key(), sb.Val()))
  {
    var s := Display(sb);
    var k := |sb.Key()|;
    assert s[k] == '(' && s[..k] == sb.Key();
    assert '(' !in s[..k];
    assert s[k + 1..|s| - 1] == sb.Val();
  }

  /** The display does not tell a custom key `id` or `name` from the dedicated variants. */
  lemma DisplayCollides(v: string)
    ensures Display(Custom("id", v)) == Display(Id(v))
    ensures Display(Custom("name", v)) == Display(Name(v))
    ensures Custom("id", v) != Id(v)
  {
  }
}

/**
 * The typed string-to-value converter of controller/src/values.rs.
 */
module Values {
  import opened Wrappers
  import opened Decimal
  import opened ControllerErrors

  type I16 = x: int | I16_MIN <= x <= I16_MAX
  type I32 = x: int | I32_MIN <= x <= I32_MAX
  type I64 = x: int | I64_MIN <= x <= I64_MAX

  datatype Type = StringType | BoolType | Int16Type | Int32Type | Int64Type | DoubleType

  datatype Value =
    | String(s: string)
    | Bool(b: bool)
    | Int16(i16: I16)
    | Int32(i32: I32)
    | Int64(i64: I64)
    | Double(f64: real)
  {
    /** The type tag each variant answers to. */
    function TypeOf(): Type {
      match this
      case String(_) => StringType
      case Bool(_) => BoolType
      case Int16(_) => Int16Type
      case Int32(_) => Int32Type
      case Int64(_) => Int64Type
      case Double(_) => DoubleType
    }
  }

  /**
   * `Value::from_str`. Floating-point parsing is not modelled: `parseDouble`
   * stands for `str::parse::<f64>`, giving the value or the error's message.
   */
  function FromStr(value: string, tp: Type, parseDouble: string -> Result<real, string>): (r: Result<Value, ErrorKind>)
    ensures r.Ok? ==> r.value.TypeOf() == tp
    ensures r.Err? ==> r.error.ValueConvert?
  {
    match tp
    case StringType => Ok(String(value))
    case BoolType =>
      if value == "true" || value == "1" then Ok(Bool(true))
      else if value == "false" || value == "0" then Ok(Bool(false))
      else Err(ValueConvert("Invalid literal for bool"))
    case Int16Type =>
      (match ParseInt(value, I16_MIN, I16_MAX)
       case Ok(v) => Ok(Int16(v))
       case Err(e) => Err(ValueConvert(Message(e))))
    case Int32Type =>
      (match ParseInt(value, I32_MIN, I32_MAX)
       case Ok(v) => Ok(Int32(v))
       case Err(e) => Err(ValueConvert(Message(e))))
    case Int64Type =>
      (match ParseInt(value, I64_MIN, I64_MAX)
       case Ok(v) => Ok(Int64(v))
       case Err(e) => Err(ValueConvert(Message(e))))
    case DoubleType =>
      (match parseDouble(value)
       case Ok(v) => Ok(Double(v))
       case Err(message) => Err(ValueConvert(message)))
  }

  function AsString(v: Value): (r: Result<string, ErrorKind>)
    ensures r.Ok? <==> v.String?
    ensures r.Ok? ==> r.value == v.s
    ensures r.Err? ==> r.error == CastingValue("String")
  {
    match v
    case String(s) => Ok(s)
    case _ => Err(CastingValue("String"))
  }

  function AsBool(v: Value): (r: Result<bool, ErrorKind>)
    ensures r.Ok? <==> v.Bool?
    ensures r.Ok? ==> r.value == v.b
    ensures r.Err? ==> r.error == CastingValue("bool")
  {
    match v
    case Bool(b) => Ok(b)
    case _ => Err(CastingValue("bool"))
  }

  function AsI16(v: Value): (r: Result<I16, ErrorKind>)
    ensures r.Ok? <==> v.Int16?
    ensures r.Ok? ==> r.value == v.i16
    ensures r.Err? ==> r.error == CastingValue("i16")
  {
    match v
    case Int16(x) => Ok(x)
    case _ => Err(CastingValue("i16"))
  }

  function AsI32(v: Value): (r: Result<I32, ErrorKind>)
    ensures r.Ok? <==> v.Int32?
    ensures r.Ok? ==> r.value == v.i32
    ensures r.Err? ==> r.error == CastingValue("i32")
  {
    match v
    case Int32(x) => Ok(x)
    case _ => Err(CastingValue("i32"))
  }

  function AsI64(v: Value): (r: Result<I64, ErrorKind>)
    ensures r.Ok? <==> v.Int64?
    ensures r.Ok? ==> r.value == v.i64
    ensures r.Err? ==> r.error == CastingValue("i64")
  {
    match v
    case Int64(x) => Ok(x)
    case _ => Err(CastingValue("i64"))
  }

  function AsF64(v: Value): (r: Result<real, ErrorKind>)
    ensures r.Ok? <==> v.Double?
    ensures r.Ok? ==> r.value == v.f64
    ensures r.Err? ==> r.error == CastingValue("f64")
  {
    match v
    case Double(x) => Ok(x)
    case _ => Err(CastingValue("f64"))
  }

  /** Strings are stored as given and read back unchanged. */
  lemma StringRoundTrip(s: string, parseDouble: string -> Result<real, string>)
    ensures FromStr(s, StringType, parseDouble).Ok?
    ensures AsString(FromStr(s, StringType, parseDouble).value) == Ok(s)
  {
  }

  /** Exactly four literals are booleans. */
  lemma BoolLiterals(s: string, parseDouble: string -> Result<real, string>)
    ensures FromStr(s, BoolType, parseDouble).Ok? <==> s in {"true", "1", "false", "0"}
    ensures FromStr(s, BoolType, parseDouble).Ok? ==>
      AsBool(FromStr(s, BoolType, parseDouble).value) == Ok(s == "true" || s == "1")
  {
  }

  /** Every 16-bit integer survives printing and conversion; wider ones are refused with the overflow's message. */
  lemma Int16RoundTrip(n: int, parseDouble: string -> Result<real, string>)
    ensures I16_MIN <= n <= I16_MAX ==> FromStr(Show(n), Int16Type, parseDouble) == Ok(Int16(n))
    ensures I16_MIN <= n <= I16_MAX ==> AsI16(FromStr(Show(n), Int16Type, parseDouble).value) == Ok(n)
    ensures n > I16_MAX ==> FromStr(Show(n), Int16Type, parseDouble) == Err(ValueConvert("number too large to fit in target type"))
    ensures n < I16_MIN ==> FromStr(Show(n), Int16Type, parseDouble) == Err(ValueConvert("number too small to fit in target type"))
  {
    ParseShow(n, I16_MIN, I16_MAX);
  }

  lemma Int32RoundTrip(n: int, parseDouble: string -> Result<real, string>)
    ensures I32_MIN <= n <= I32_MAX ==> FromStr(Show(n), Int32Type, parseDouble) == Ok(Int32(n))
    ensures I32_MIN <= n <= I32_MAX ==> AsI32(FromStr(Show(n), Int32Type, parseDouble).value) == Ok(n)
    ensures n > I32_MAX ==> FromStr(Show(n), Int32Type, parseDouble) == Err(ValueConvert("number too large to fit in target type"))
    ensures n < I32_MIN ==> FromStr(Show(n), Int32Type, parseDouble) == Err(ValueConvert("number too small to fit in target type"))
  {
    ParseShow(n, I32_MIN, I32_MAX);
  }

  lemma Int64RoundTrip(n: int, parseDouble: string -> Result<real, string>)
    ensures I64_MIN <= n <= I64_MAX ==> FromStr(Show(n), Int64Type, parseDouble) == Ok(Int64(n))
    ensures I64_MIN <= n <= I64_MAX ==> AsI64(FromStr(Show(n), Int64Type, parseDouble).value) == Ok(n)
    ensures n > I64_MAX ==> FromStr(Show(n), Int64Type, parseDouble) == Err(ValueConvert("number too large to fit in target type"))
    ensures n < I64_MIN ==> FromStr(Show(n), Int64Type, parseDouble) == Err(ValueConvert("number too small to fit in target type"))
  {
    ParseShow(n, I64_MIN, I64_MAX);
  }

  /** The unit tests' integer cases: "123" as an i16 and "1234" as an i32 and an i64. */
  lemma IntegerExamples(parseDouble: string -> Result<real, string>)
    ensures FromStr("123", Int16Type, parseDouble) == Ok(Int16(123))
    ensures FromStr("1234", Int32Type, parseDouble) == Ok(Int32(1234))
    ensures FromStr("1234", Int64Type, parseDouble) == Ok(Int64(1234))
    ensures AsI16(FromStr("123", Int16Type, parseDouble).value) == Ok(123)
    ensures AsI32(FromStr("1234", Int32Type, parseDouble).value) == Ok(1234)
    ensures AsI64(FromStr("1234", Int64Type, parseDouble).value) == Ok(1234)
  {
    assert Show(123) == "123" by {
      assert Digits(12) == "12" by { assert Digits(1) == "1"; }
    }
    assert Show(1234) == "1234" by {
      assert Digits(123) == "123" by {
        assert Digits(12) == "12" by { assert Digits(1) == "1"; }
      }
    }
    Int16RoundTrip(123, parseDouble);
    Int32RoundTrip(1234, parseDouble);
    Int64RoundTrip(1234, parseDouble);
  }

  /**
   * A double is whatever the floating-point parser reads, and `as_f64` hands
   * it back; the parser's error message becomes a `ValueConvert` error.
   */
  lemma DoubleRoundTrip(s: string, parseDouble: string -> Result<real, string>)
    ensures parseDouble(s).Ok? ==> AsF64(FromStr(s, DoubleType, parseDouble).value) == Ok(parseDouble(s).value)
    ensures parseDouble(s).Err? ==> FromStr(s, DoubleType, parseDouble) == Err(ValueConvert(parseDouble(s).error))
  {
  }
}

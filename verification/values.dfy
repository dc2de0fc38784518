/** The JSON values that arrive in the console's request bodies, and the
    Python exceptions the handlers can raise while reshaping them. */
module PyValues {
  import opened Wrappers
  import opened PyStr

  /** A request-body value. `Other` stands for every other JSON value (null,
      and arrays of non-strings); `int()` and `.split` refuse it. */
  datatype Value =
    | Str(s: string)
    | Int(i: int)
    | Float(f: real)
    | Bool(b: bool)
    | StrList(items: seq<string>)
    | Obj(fields: map<string, Value>)
    | Other

  /** The exception a handler raises, with the dictionary key it was working on. */
  datatype PyError =
    | KeyError(key: string)        // `d[key]` on a missing key
    | ValueError(key: string)      // `int(s)` on a string that is not an integer
    | TypeError(key: string)       // `int(v)` on a value that is not a str, int, float or bool
    | AttributeError(key: string)  // `.split` / `.replace` on a value that is not a str
    | IndexError                   // `lst[k]` past the end of a list

  /** Python's `int(x)` on a float: truncation toward zero. */
  function Truncate(x: real): (t: int)
    ensures 0.0 <= x ==> t as real <= x < t as real + 1.0
    ensures x < 0.0 ==> t as real - 1.0 < x <= t as real
  {
    if x >= 0.0 then x.Floor else -((-x).Floor)
  }

  /** Python's `int(v)` on a request-body value, `key` naming where it came from:
      ints are kept, floats truncated toward zero, booleans read as 0 or 1,
      strings parsed; anything else raises TypeError. */
  function PyInt(v: Value, key: string): (r: Result<int, PyError>)
    ensures v.Int? ==> r == Ok(v.i)
    ensures v.Float? && v.f >= 0.0 ==> r.Ok? && r.value as real <= v.f < r.value as real + 1.0
    ensures v.Float? && v.f < 0.0 ==> r.Ok? && r.value as real - 1.0 < v.f <= r.value as real
    ensures v.Bool? ==> r == Ok(if v.b then 1 else 0)
    ensures v.Str? ==> (r.Ok? <==> ParseInt(v.s).Some?)
    ensures v.Str? && r.Err? ==> r.error == ValueError(key)
    ensures v.StrList? || v.Obj? || v.Other? ==> r == Err(TypeError(key))
  {
    match v
    case Int(i) => Ok(i)
    case Float(f) => Ok(Truncate(f))
    case Bool(b) => Ok(if b then 1 else 0)
    case Str(s) => (match ParseInt(s) case Some(i) => Ok(i) case None => Err(ValueError(key)))
    case _ => Err(TypeError(key))
  }

  /** `int(3.0) == 3`, `int(2.5) == 2` and `int(-2.5) == -2`. */
  lemma PyIntOfFloats(key: string)
    ensures PyInt(Float(3.0), key) == Ok(3)
    ensures PyInt(Float(2.5), key) == Ok(2)
    ensures PyInt(Float(-2.5), key) == Ok(-2)
  {
  }

  /** A decimal string posted for an int field is read back as that int. */
  lemma PyIntOfDecimal(i: int, key: string)
    ensures PyInt(Str(IntToStr(i)), key) == Ok(i)
  {
    ParseIntToStr(i);
  }
}

/** The JSON values the powder sampler reads its recipes from, and the few
    Python operations the recipe code applies to them, with the exceptions
    Python raises when a value has the wrong shape. */
module PyJson {

  datatype Option<T> = None | Some(value: T)

  /** The Python exception classes the sampler code can raise or catch. */
  datatype PyError = KeyError | TypeError | AttributeError | ValueError | OverflowError | RuntimeError | EOFError

  datatype Result<T> = Ok(value: T) | Err(error: PyError)

  /** How a call ends: it returns, or an exception escapes it. */
  datatype Completion = Returned | Raised(error: PyError)

  /** A value produced by json.loads. Objects are dictionaries from keys to
      values; their key order is not modelled. */
  datatype Json =
    | JNull
    | JBool(b: bool)
    | JInt(i: int)
    | JFloat(r: real)
    | JStr(s: string)
    | JList(items: seq<Json>)
    | JDict(fields: map<string, Json>)

  /** The text conversions the code relies on: float() and int() applied to
      a string. They give None where Python raises ValueError. */
  datatype Conversions = Conversions(parseFloat: string -> Option<real>, parseInt: string -> Option<int>)

  /** Python truthiness. */
  predicate Truthy(j: Json)
  {
    match j
    case JNull => false
    case JBool(b) => b
    case JInt(i) => i != 0
    case JFloat(r) => r != 0.0
    case JStr(s) => s != ""
    case JList(items) => items != []
    case JDict(fields) => fields != map[]
  }

  /** isinstance(j, int): a bool is an int in Python. */
  predicate IsInt(j: Json)
  {
    j.JInt? || j.JBool?
  }

  predicate StartsWith(s: string, prefix: string)
  {
    |prefix| <= |s| && s[..|prefix|] == prefix
  }

  predicate HasSubstring(s: string, part: string)
    decreases |s|
  {
    StartsWith(s, part) || (s != [] && HasSubstring(s[1..], part))
  }

  /** `key in container`: membership of a key in a dict, of an equal string in
      a list, of a substring in a string; any other value raises TypeError. */
  function Contains(container: Json, key: string): Result<bool>
  {
    match container
    case JDict(fields) => Ok(key in fields)
    case JList(items) => Ok(JStr(key) in items)
    case JStr(s) => Ok(HasSubstring(s, key))
    case _ => Err(TypeError)
  }

  /** dict.get(key, default) on a dict. */
  function Lookup(fields: map<string, Json>, key: string, default: Json): Json
  {
    if key in fields then fields[key] else default
  }

  /** `obj.get(key, default)`: only dicts have the method. */
  function GetMethod(obj: Json, key: string, default: Json): Result<Json>
  {
    if obj.JDict? then Ok(Lookup(obj.fields, key, default)) else Err(AttributeError)
  }

  /** `obj[key]` with a string key: a missing key raises KeyError, and a list,
      a string or a scalar cannot be indexed by a string. */
  function Subscript(obj: Json, key: string): Result<Json>
  {
    if !obj.JDict? then Err(TypeError)
    else if key in obj.fields then Ok(obj.fields[key])
    else Err(KeyError)
  }

  /** The least integer that float() rounds past the largest double,
      2^1024 - 2^970: halfway between that double, 2^1024 - 2^971, and
      2^1024, which round-half-to-even picks. */
  const DoubleOverflow: int := 0xFFFFFFFFFFFFFC00000000000000000000000000000000000000000000000000000000000000000000000000000000000000000000000000000000000000000000000000000000000000000000000000000000000000000000000000000000000000000000000000000000000000000000000000000000000000000000000000

  /** An integer whose float() raises OverflowError. */
  predicate BeyondDouble(i: int)
  {
    i <= -DoubleOverflow || DoubleOverflow <= i
  }

  /** float(j). An integer beyond the double range raises OverflowError;
      rounding to the nearest double is not modelled. */
  function FloatOf(conv: Conversions, j: Json): (r: Result<real>)
    ensures r.Err? ==> r.error == TypeError || r.error == ValueError || r.error == OverflowError
    ensures r.Err? <==> j.JNull? || j.JList? || j.JDict? || (j.JStr? && conv.parseFloat(j.s).None?)
                        || (j.JInt? && BeyondDouble(j.i))
    ensures j.JInt? && !BeyondDouble(j.i) ==> r == Ok(j.i as real)
    ensures j.JInt? && BeyondDouble(j.i) ==> r == Err(OverflowError)
    ensures j.JFloat? ==> r == Ok(j.r)
  {
    match j
    case JBool(b) => Ok(if b then 1.0 else 0.0)
    case JInt(i) => if BeyondDouble(i) then Err(OverflowError) else Ok(i as real)
    case JFloat(x) => Ok(x)
    case JStr(s) => if conv.parseFloat(s).Some? then Ok(conv.parseFloat(s).value) else Err(ValueError)
    case _ => Err(TypeError)
  }

  /** Truncation toward zero, as int() applies it to a float. */
  function Truncate(x: real): (n: int)
    ensures 0.0 <= x ==> n as real <= x < n as real + 1.0
    ensures x < 0.0 ==> n as real - 1.0 < x <= n as real
  {
    if x >= 0.0 then x.Floor else -((-x).Floor)
  }

  /** int(j). */
  function IntOf(conv: Conversions, j: Json): (r: Result<int>)
    ensures IsInt(j) ==> r.Ok?
    ensures j.JInt? ==> r == Ok(j.i)
    ensures r.Err? <==> j.JNull? || j.JList? || j.JDict? || (j.JStr? && conv.parseInt(j.s).None?)
  {
    match j
    case JBool(b) => Ok(if b then 1 else 0)
    case JInt(i) => Ok(i)
    case JFloat(x) => Ok(Truncate(x))
    case JStr(s) => if conv.parseInt(s).Some? then Ok(conv.parseInt(s).value) else Err(ValueError)
    case _ => Err(TypeError)
  }

  /** What a `for x in j` loop visits, when the body's first step fails on a
      string element with `onString`: a list yields its items; an empty
      string or dict yields nothing; a non-empty string yields characters and
      a non-empty dict yields its keys, both strings, so the body fails on the
      first of them; any other value is not iterable. */
  function LoopOver(j: Json, onString: PyError): (r: Result<seq<Json>>)
    ensures j.JList? ==> r == Ok(j.items)
    ensures r.Ok? ==> j.JList? || r.value == []
  {
    match j
    case JList(items) => Ok(items)
    case JStr(s) => if s == "" then Ok([]) else Err(onString)
    case JDict(fields) => if fields == map[] then Ok([]) else Err(onString)
    case _ => Err(TypeError)
  }
}

/** How the library's files, all compiled with `declare(strict_types=1)`, turn a
    decoded payload value into a typed parameter: a value of the wrong type is a
    `TypeError` rather than a silent conversion, and reading an absent key gives
    `null`, which only a nullable parameter accepts. */
module StrictTypes {
  import opened Wrappers
  import opened Json

  /** What PHP throws while a payload is turned into typed values. */
  datatype DecodeError =
      /** the value read at `key` does not have the parameter's type (absent reads as null) */
    | TypeError(key: string)
      /** a backed enum's `from` found no case whose value is `value` */
    | ValueError(value: string)
      /** a value that must be a PHP array (a JSON object or list) is not one */
    | NotAnArray

  /** `$a[$key]` passed to a `string` parameter. */
  function RequiredString(a: seq<(string, Json)>, key: string): (r: Result<string, DecodeError>)
    ensures r.Success? <==> Get(a, key).Str?
    ensures r.Success? ==> Get(a, key) == Str(r.value)
    ensures r.Failure? ==> r.error == TypeError(key)
  {
    match Get(a, key)
    case Str(s) => Success(s)
    case _ => Failure(TypeError(key))
  }

  /** `$a[$key] ?? null` passed to a `?string` parameter. */
  function NullableString(a: seq<(string, Json)>, key: string): (r: Result<Option<string>, DecodeError>)
    ensures r.Success? <==> Get(a, key).Null? || Get(a, key).Str?
    ensures r.Success? ==> (r.value.None? <==> !IsSet(a, key))
    ensures r.Success? && r.value.Some? ==> Get(a, key) == Str(r.value.value)
    ensures r.Failure? ==> r.error == TypeError(key)
  {
    match Get(a, key)
    case Null => Success(None)
    case Str(s) => Success(Some(s))
    case _ => Failure(TypeError(key))
  }

  /** `$a[$key]` passed to an `int` parameter: a float is refused, not truncated. */
  function RequiredInt(a: seq<(string, Json)>, key: string): (r: Result<PhpInt, DecodeError>)
    ensures r.Success? <==> Get(a, key).Int?
    ensures r.Success? ==> Get(a, key) == Int(r.value)
    ensures r.Failure? ==> r.error == TypeError(key)
  {
    match Get(a, key)
    case Int(i) => Success(i)
    case _ => Failure(TypeError(key))
  }

  /** `$a[$key]` passed to a `bool` parameter. */
  function RequiredBool(a: seq<(string, Json)>, key: string): (r: Result<bool, DecodeError>)
    ensures r.Success? <==> Get(a, key).Bool?
    ensures r.Success? ==> Get(a, key) == Bool(r.value)
    ensures r.Failure? ==> r.error == TypeError(key)
  {
    match Get(a, key)
    case Bool(b) => Success(b)
    case _ => Failure(TypeError(key))
  }

  /** `$a[$key]` passed to a string-backed enum's `from`/`tryFrom`, whose
      parameter accepts only a string when the caller uses strict types. */
  function EnumArgument(v: Json, key: string): (r: Result<string, DecodeError>)
    ensures r.Success? <==> v.Str?
    ensures r.Success? ==> v == Str(r.value)
    ensures r.Failure? ==> r.error == TypeError(key)
  {
    if v.Str? then Success(v.s) else Failure(TypeError(key))
  }

  /** `out` is what a nullable string parameter received from `key`: that
      string, or null exactly when the key is absent or null. */
  predicate ReadsNullable(a: seq<(string, Json)>, key: string, out: Option<string>) {
    match out
    case Some(s) => Get(a, key) == Str(s)
    case None => Get(a, key) == Null
  }

  /** `key` is absent, null or a string: what a nullable string parameter takes. */
  predicate NullOrString(a: seq<(string, Json)>, key: string) {
    Get(a, key).Null? || Get(a, key).Str?
  }

  /** The payload value for an optional string: the string, or null. */
  function NullableJson(v: Option<string>): Json {
    if v.Some? then Str(v.value) else Null
  }
}

/**
 Small values shared by every module of the model: optional and fallible
 results, and the JavaScript truthiness rules the source leans on when it
 writes `value || fallback` or `value ? a : b` over strings that may be
 `undefined`.
 */
module Common {

  /** A JavaScript value that may be `undefined` (or `null`, where the source
      does not tell the two apart). */
  datatype Option<+T> = None | Some(value: T)

  /** The outcome of an operation that can throw. */
  datatype Result<+T, +E> = Ok(value: T) | Err(error: E)

  /** JavaScript truthiness of an optional string: `undefined`, `null` and
      the empty string are falsy, every other string is truthy. */
  predicate Truthy(s: Option<string>)
  {
    s.Some? && s.value != ""
  }

  /** `s || undefined`: a falsy string becomes `undefined`, a truthy one is
      kept as it is. */
  function OrUndefined(s: Option<string>): (r: Option<string>)
    ensures Truthy(s) ==> r == s
    ensures !Truthy(s) ==> r == None
    ensures r == None || Truthy(r)
  {
    if Truthy(s) then s else None
  }

  /** `s || fallback` over an optional string. */
  function OrElse(s: Option<string>, fallback: string): (r: string)
    ensures Truthy(s) ==> Some(r) == s
    ensures !Truthy(s) ==> r == fallback
  {
    if Truthy(s) then s.value else fallback
  }

  /** What a JSX child `{s}` renders as: `undefined` and `null` render as
      nothing. */
  function Text(s: Option<string>): (r: string)
    ensures s.Some? ==> r == s.value
    ensures s == None ==> r == ""
  {
    match s
    case Some(v) => v
    case None => ""
  }

  /** The JavaScript expression `s + suffix`: an `undefined` operand is turned
      into the word "undefined" before the concatenation. */
  function JsConcat(s: Option<string>, suffix: string): (r: string)
    ensures s.Some? ==> r == s.value + suffix
    ensures s == None ==> r == "undefined" + suffix
    ensures |r| >= |suffix| && r[|r| - |suffix|..] == suffix
  {
    (if s.Some? then s.value else "undefined") + suffix
  }
}

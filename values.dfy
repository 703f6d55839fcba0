/** Decoded JSON documents and the few Python operations the binding applies
    to them (`d[k]`, `k in d`, `d.get(k)`, truth tests, iteration, `str()`),
    with Python's exceptions turned into error values. */
module Values {
  import opened Decimal

  datatype Option<T> = None | Some(value: T)

  /** A decoded JSON value. `JNull` is also Python's `None`: the binding
      cannot tell the two apart either (`d.get(k)` of a missing key and a
      JSON null both give `None`). */
  datatype Json =
    | JNull
    | JBool(b: bool)
    | JInt(i: int)
    | JStr(s: string)
    | JArr(items: seq<Json>)
    | JObj(fields: map<string, Json>)

  /** The exceptions the modelled code can raise. */
  datatype Error =
    | APIError(message: string)   // `get`/`post` saw a status other than 200
    | OauthError(message: string) // `exchange_token` saw a response that is not ok
    | KeyError(key: string)       // `d[key]` on a dict without `key`
    | TypeError                   // a JSON value of the wrong shape was indexed, tested or iterated
    | AttributeError              // `.get` on a non-dict, or `self.m` is None
    | InvalidUrl                  // a URL taken from a response is not a string

  datatype Result<T> = Ok(value: T) | Err(error: Error) {
    predicate IsFailure() { Err? }

    function PropagateFailure<U>(): Result<U>
      requires Err?
    {
      Err(error)
    }

    function Extract(): T
      requires Ok?
    {
      value
    }
  }

  /** Python's truth test: `None`, `False`, `0`, `""`, `[]` and `{}` are false. */
  predicate Truthy(j: Json) {
    match j
    case JNull => false
    case JBool(b) => b
    case JInt(i) => i != 0
    case JStr(s) => s != ""
    case JArr(xs) => xs != []
    case JObj(m) => m != map[]
  }

  /** `d[key]`: a KeyError on a dict without the key, a TypeError on
      anything that is not a dict (a string key cannot index a list or a str). */
  function Index(d: Json, key: string): Result<Json> {
    match d
    case JObj(m) => if key in m then Ok(m[key]) else Err(KeyError(key))
    case _ => Err(TypeError)
  }

  /** `d.get(key)`: `None` for a missing key; only dicts have `.get`. */
  function DictGet(d: Json, key: string): Result<Json> {
    match d
    case JObj(m) => Ok(if key in m then m[key] else JNull)
    case _ => Err(AttributeError)
  }

  predicate StartsWith(p: string, s: string) {
    |p| <= |s| && s[..|p|] == p
  }

  /** `p in s` for two Python strings. */
  predicate IsSubstring(p: string, s: string)
    decreases |s|
  {
    StartsWith(p, s) || (s != [] && IsSubstring(p, s[1..]))
  }

  /** Python's `key in container` for a string `key`: key membership for a
      dict, element membership for a list, substring for a str, and a
      TypeError for numbers, booleans and None. */
  function Contains(container: Json, key: string): Result<bool> {
    match container
    case JObj(m) => Ok(key in m)
    case JArr(xs) => Ok(JStr(key) in xs)
    case JStr(s) => Ok(IsSubstring(key, s))
    case _ => Err(TypeError)
  }

  /** What `for x in j` visits: the elements of a list, the one-character
      strings of a str, nothing for an empty dict. Numbers, booleans and None
      raise a TypeError; a non-empty dict (whose keys Python would visit, in
      an order the JSON model does not keep) is reported as a TypeError too. */
  function Iterate(j: Json): Result<seq<Json>> {
    match j
    case JArr(xs) => Ok(xs)
    case JStr(s) => Ok(Chars(s))
    case JObj(m) => if m == map[] then Ok([]) else Err(TypeError)
    case _ => Err(TypeError)
  }

  /** The one-character strings of `s`, in order. */
  function Chars(s: string): (cs: seq<Json>)
    ensures |cs| == |s| && forall i | 0 <= i < |s| :: cs[i] == JStr([s[i]])
  {
    if s == [] then [] else [JStr([s[0]])] + Chars(s[1..])
  }

  /** Python's `str(v)` of a value formatted into a URL with `"{}".format`.
      Exact for strings, numbers, booleans and None; lists and dicts are
      rendered by a stand-in rather than by Python's `repr`. */
  function Display(j: Json): string {
    match j
    case JNull => "None"
    case JBool(b) => if b then "True" else "False"
    case JInt(i) => IntToString(i)
    case JStr(s) => s
    case JArr(_) => "[...]"
    case JObj(_) => "{...}"
  }
}

/**
  The Python values a JSON document decodes to, and the operators the
  server applies to them (`in`, `len`, `[]`, `.get`), with the exceptions
  each raises on a value that does not support it.
 */
module PyData {
  import opened Wrappers
  import opened Text

  /** A value `json.loads` can return. Numbers and booleans are never inspected, so they carry nothing. */
  datatype PyValue =
    | PyNone
    | PyBool
    | PyNumber
    | PyStr(s: string)
    | PyList(items: seq<PyValue>)
    | PyDict(fields: map<string, PyValue>)

  /** The exceptions these operators raise. */
  datatype PyError =
    | TypeError       // `in`, `len` or `[]` on a value that does not support it, or `str + non-str`
    | KeyError        // `[0]` on a dict
    | AttributeError  // `.get` on something that is not a dict

  /** `key in v`: a dict tests its keys, a list its elements, a str its substrings; anything else raises TypeError. */
  function In(key: string, v: PyValue): Result<bool, PyError> {
    match v
    case PyDict(fields) => Success(key in fields)
    case PyList(items) => Success(PyStr(key) in items)
    case PyStr(s) => Success(Contains(s, key))
    case _ => Failure(TypeError)
  }

  /** `v[key]` with a string key, once `key in v` held: only a dict allows it. */
  function Subscript(key: string, v: PyValue): Result<PyValue, PyError>
    requires In(key, v) == Success(true)
  {
    match v
    case PyDict(fields) => Success(fields[key])
    case _ => Failure(TypeError)
  }

  /** `len(v)`: defined for str, list and dict. */
  function Len(v: PyValue): Result<nat, PyError> {
    match v
    case PyStr(s) => Success(|s|)
    case PyList(items) => Success(|items|)
    case PyDict(fields) => Success(|fields|)
    case _ => Failure(TypeError)
  }

  /** `v[0]` on a value of positive length: a str gives its first character, a dict raises KeyError (JSON keys are strings). */
  function First(v: PyValue): Result<PyValue, PyError>
    requires Len(v).Success? && Len(v).value > 0
  {
    match v
    case PyStr(s) => Success(PyStr(s[..1]))
    case PyList(items) => Success(items[0])
    case PyDict(_) => Failure(KeyError)
  }

  /** `v.get(key, {})`: only a dict has `.get`. */
  function GetOrEmpty(v: PyValue, key: string): Result<PyValue, PyError> {
    match v
    case PyDict(fields) => Success(if key in fields then fields[key] else PyDict(map[]))
    case _ => Failure(AttributeError)
  }
}

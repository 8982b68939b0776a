/** Python values, truthiness and exceptions, as far as the repository service's
    remote delegation and plugin serialisation code observe them. */
module PyModel {

  /** A dynamically typed Python value. `PyObject` stands for any other object
      (a document, a protobuf message): it has a class name and attributes. */
  datatype PyVal =
    | PyNone
    | PyBool(b: bool)
    | PyInt(i: int)
    | PyStr(s: string)
    | PyList(items: seq<PyVal>)
    | PyDict(entries: map<string, PyVal>)
    | PyObject(cls: string, attrs: map<string, PyVal>)

  /** Python's `bool(v)`: empty containers, zero, `""`, `None` and `False` are
      falsy; a plain object without `__bool__`/`__len__` is truthy. */
  predicate Truthy(v: PyVal) {
    match v
    case PyNone => false
    case PyBool(b) => b
    case PyInt(i) => i != 0
    case PyStr(s) => s != ""
    case PyList(xs) => xs != []
    case PyDict(m) => |m| > 0
    case PyObject(_, _) => true
  }

  /** Python's `a or b`. */
  function Or(a: PyVal, b: PyVal): (r: PyVal)
    ensures Truthy(a) ==> r == a
    ensures !Truthy(a) ==> r == b
  {
    if Truthy(a) then a else b
  }

  datatype Option<+T> = None | Some(value: T)

  /** The exceptions the modelled code can raise. */
  datatype Exception =
    | KeyError(key: string)
    | AttributeError(name: string)
    | TypeError
    | TokenDecodeError                 // the JWT library could not decode a token
    | SecretServiceError               // `Secret.get_data` failed (no such secret, unauthorized, unavailable)
    | NotImplementedError(message: string)

  /** The outcome of a call: a value, a raised exception, or `Blocked` when the
      call is still polling the coordination store after the supplied read
      answers have run out (the source keeps polling forever). */
  datatype Outcome<+T> = Ok(value: T) | Raised(exc: Exception) | Blocked {
    predicate IsFailure() {
      !Ok?
    }

    function PropagateFailure<U>(): (r: Outcome<U>)
      requires !Ok?
      ensures r.Raised? == Raised? && (Raised? ==> r.exc == exc)
    {
      if Raised? then Raised(exc) else Blocked
    }

    function Extract(): T
      requires Ok?
    {
      value
    }
  }

  /** `v[key]` on a value that must be a dict. */
  function Subscript(v: PyVal, key: string): (r: Outcome<PyVal>)
    ensures r.Ok? <==> v.PyDict? && key in v.entries
    ensures r.Ok? ==> r.value == v.entries[key]
    ensures v.PyDict? && key !in v.entries ==> r == Raised(KeyError(key))
    ensures !r.Blocked?
  {
    match v
    case PyDict(m) => if key in m then Ok(m[key]) else Raised(KeyError(key))
    case _ => Raised(TypeError)
  }

  /** `v.name` on an object. */
  function Attribute(v: PyVal, name: string): (r: Outcome<PyVal>)
    ensures r.Ok? <==> v.PyObject? && name in v.attrs
    ensures r.Ok? ==> r.value == v.attrs[name]
    ensures !r.Ok? ==> r == Raised(AttributeError(name))
  {
    if v.PyObject? && name in v.attrs then Ok(v.attrs[name]) else Raised(AttributeError(name))
  }
}

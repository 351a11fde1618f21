/** Python values as the pipeline sees them: loosely-typed JSON-like data read
    from third-party services, Python's truthiness, `dict.get`, subscripting,
    `len`, and the exceptions those raise. Every other module imports this one. */
module PyValues {

  datatype Option<+T> = None | Some(value: T)

  /** The kinds of Python exception the modelled code can raise. `ServiceError`
      stands for whatever a third-party client (speech, search, image, agent)
      raises; its message is not modelled. */
  datatype PyError =
    | AttributeError   // `.get` on something that is not a dict
    | KeyError         // `d[k]` with `k` missing
    | TypeError        // subscripting or `len` of a value that does not support it
    | IndexError       // `xs[0]` on an empty sequence
    | NameError        // reading a variable that was never bound
    | ValueError       // raised explicitly by the code
    | ServiceError     // raised inside a third-party client

  /** Either a value or the exception that evaluating it raised. */
  datatype Result<+T> = Success(value: T) | Failure(error: PyError) {
    predicate IsFailure() { Failure? }
    function PropagateFailure<U>(): Result<U>
      requires Failure?
    {
      Failure(error)
    }
    function Extract(): T
      requires Success?
    {
      value
    }
  }

  /** A Python variable that may or may not have been assigned. */
  datatype Binding<+T> = Unbound | Bound(value: T)

  /** JSON-like data as returned by the search, speech and tool services. */
  datatype Json =
    | JNull
    | JBool(b: bool)
    | JInt(i: int)
    | JStr(s: string)
    | JList(items: seq<Json>)
    | JObj(fields: map<string, Json>)

  /** Python truthiness: `None`, `False`, `0` and empty containers are falsy. */
  predicate Truthy(j: Json) {
    match j
    case JNull => false
    case JBool(b) => b
    case JInt(i) => i != 0
    case JStr(s) => s != []
    case JList(xs) => xs != []
    case JObj(m) => m != map[]
  }

  /** `d.get(key, default)` on a value known to be a dict. */
  function Lookup(m: map<string, Json>, key: string, default: Json): Json {
    if key in m then m[key] else default
  }

  /** `j.get(key, default)`: only dicts have `get`. */
  function Get(j: Json, key: string, default: Json): Result<Json> {
    if j.JObj? then Success(Lookup(j.fields, key, default)) else Failure(AttributeError)
  }

  /** `j[key]` with a string key: a dict lookup; any other value refuses a string index. */
  function Index(j: Json, key: string): Result<Json> {
    match j
    case JObj(m) => if key in m then Success(m[key]) else Failure(KeyError)
    case _ => Failure(TypeError)
  }

  /** `j[k0][k1]...[kn]`: a chain of string subscripts, evaluated left to right. */
  function Path(j: Json, keys: seq<string>): Result<Json>
    decreases |keys|
  {
    if keys == [] then Success(j)
    else
      match Index(j, keys[0])
      case Failure(e) => Failure(e)
      case Success(child) => Path(child, keys[1..])
  }

  /** `j[0]`. A string yields its first character as a string. The keys of a
      dict decoded from JSON are strings, so `0` is never one of them. */
  function First(j: Json): Result<Json> {
    match j
    case JList(xs) => if xs == [] then Failure(IndexError) else Success(xs[0])
    case JStr(s) => if s == [] then Failure(IndexError) else Success(JStr([s[0]]))
    case JObj(_) => Failure(KeyError)
    case _ => Failure(TypeError)
  }

  /** `len(j)`. */
  function Len(j: Json): Result<nat> {
    match j
    case JStr(s) => Success(|s|)
    case JList(xs) => Success(|xs|)
    case JObj(m) => Success(|m|)
    case _ => Failure(TypeError)
  }

  /** `[f(x) for x in xs]` written as a loop that appends: the elements are
      processed in order and the first exception propagates, so there is no
      partial result. */
  function MapInOrder<T>(xs: seq<Json>, f: Json -> Result<T>): (r: Result<seq<T>>)
    ensures r.Success? ==> |r.value| == |xs|
  {
    if xs == [] then Success([])
    else
      match f(xs[0])
      case Failure(e) => Failure(e)
      case Success(y) =>
        match MapInOrder(xs[1..], f)
        case Failure(e) => Failure(e)
        case Success(ys) => Success([y] + ys)
  }

  /** The result succeeds exactly when every element succeeds, and then holds
      each element's image at the element's own position. */
  lemma {:induction false} MapInOrderAt<T>(xs: seq<Json>, f: Json -> Result<T>)
    ensures MapInOrder(xs, f).Success? <==> forall i :: 0 <= i < |xs| ==> f(xs[i]).Success?
    ensures MapInOrder(xs, f).Success? ==>
              forall i :: 0 <= i < |xs| ==> MapInOrder(xs, f).value[i] == f(xs[i]).value
  {
    if xs != [] {
      MapInOrderAt(xs[1..], f);
      if MapInOrder(xs, f).Success? {
        forall i | 0 <= i < |xs| ensures f(xs[i]).Success? {
          if i > 0 { assert xs[i] == xs[1..][i - 1]; }
        }
      }
      if forall i :: 0 <= i < |xs| ==> f(xs[i]).Success? {
        forall i | 0 <= i < |xs[1..]| ensures f(xs[1..][i]).Success? {
          assert xs[1..][i] == xs[i + 1];
        }
      }
    }
  }

  /** The exception that escapes is the one raised by the first failing element. */
  lemma {:induction false} MapInOrderFirstFailure<T>(xs: seq<Json>, f: Json -> Result<T>, k: nat)
    requires k < |xs| && f(xs[k]).Failure?
    requires forall i :: 0 <= i < k ==> f(xs[i]).Success?
    ensures MapInOrder(xs, f) == Failure(f(xs[k]).error)
  {
    if k > 0 {
      forall i | 0 <= i < k - 1 ensures f(xs[1..][i]).Success? {
        assert xs[1..][i] == xs[i + 1];
      }
      assert xs[1..][k - 1] == xs[k];
      MapInOrderFirstFailure(xs[1..], f, k - 1);
    }
  }

  /** Appending one element: the step of the loop that builds the list. */
  lemma {:induction false} MapInOrderSnoc<T>(xs: seq<Json>, x: Json, f: Json -> Result<T>)
    ensures MapInOrder(xs + [x], f) ==
              match MapInOrder(xs, f)
              case Failure(e) => Failure(e)
              case Success(ys) =>
                match f(x)
                case Failure(e) => Failure(e)
                case Success(y) => Success(ys + [y])
  {
    if xs == [] {
      assert xs + [x] == [x];
      assert [x][1..] == [];
      match f(x)
      case Failure(e) =>
      case Success(y) => assert [y] + [] == [] + [y];
    } else {
      assert (xs + [x])[0] == xs[0];
      assert (xs + [x])[1..] == xs[1..] + [x];
      MapInOrderSnoc(xs[1..], x, f);
      match f(xs[0])
      case Failure(e) =>
      case Success(y) =>
        match MapInOrder(xs[1..], f)
        case Failure(e) =>
        case Success(ys) =>
          match f(x)
          case Failure(e) =>
          case Success(z) => assert [y] + (ys + [z]) == ([y] + ys) + [z];
    }
  }

  /** Once a prefix has raised, the rest of the list is never looked at. */
  lemma {:induction false} MapInOrderPrefixFailure<T>(xs: seq<Json>, k: nat, f: Json -> Result<T>)
    requires k <= |xs| && MapInOrder(xs[..k], f).Failure?
    ensures MapInOrder(xs, f) == MapInOrder(xs[..k], f)
  {
    assert k > 0;
    assert xs[..k][0] == xs[0];
    assert xs[..k][1..] == xs[1..][..k - 1];
    if f(xs[0]).Success? {
      MapInOrderPrefixFailure(xs[1..], k - 1, f);
    }
  }
}

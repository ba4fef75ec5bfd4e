/** Values shared by every part of the model: optional values and the
    outcome of Python code that may raise an exception. */
module Base {

  datatype Option<+T> = None | Some(value: T)

  /** The exceptions the modelled Python code can raise on malformed data. */
  datatype PyError =
    | AttributeError  // `.get` on something that is not a dict
    | TypeError       // iterating, slicing or quoting a value of the wrong type

  /** The outcome of a Python computation: its value, or the exception it raised. */
  datatype Outcome<+T> = Ok(value: T) | Raised(error: PyError)

  /** Prefixes `acc` to the list computed by `rest`, unless `rest` raised. */
  function Prepend<T>(acc: seq<T>, rest: Outcome<seq<T>>): (r: Outcome<seq<T>>)
    ensures r.Ok? <==> rest.Ok?
    ensures r.Ok? ==> |r.value| == |acc| + |rest.value| && r.value[..|acc|] == acc && r.value[|acc|..] == rest.value
  {
    match rest
    case Ok(v) => Ok(acc + v)
    case Raised(e) => Raised(e)
  }

  /** Runs `first`, then `second`, and concatenates their lists; the first
      exception raised is the outcome. */
  function Concat<T>(first: Outcome<seq<T>>, second: Outcome<seq<T>>): (r: Outcome<seq<T>>)
    ensures r.Ok? <==> first.Ok? && second.Ok?
    ensures first.Raised? ==> r == first
    ensures r.Ok? ==> r.value == first.value + second.value
  {
    match first
    case Raised(e) => Raised(e)
    case Ok(a) => Prepend(a, second)
  }

  lemma PrependPrepend<T>(a: seq<T>, b: seq<T>, rest: Outcome<seq<T>>)
    ensures Prepend(a, Prepend(b, rest)) == Prepend(a + b, rest)
  {
    match rest
    case Raised(_) =>
    case Ok(v) => assert a + (b + v) == (a + b) + v;
  }

  lemma PrependConcat<T>(acc: seq<T>, x: Outcome<seq<T>>, y: Outcome<seq<T>>)
    requires x.Ok?
    ensures Prepend(acc, Concat(x, y)) == Prepend(acc + x.value, y)
  {
    PrependPrepend(acc, x.value, y);
  }

  lemma ConcatAssoc<T>(x: Outcome<seq<T>>, y: Outcome<seq<T>>, z: Outcome<seq<T>>)
    ensures Concat(Concat(x, y), z) == Concat(x, Concat(y, z))
  {
    match x
    case Raised(_) =>
    case Ok(a) =>
      match y
      case Raised(_) =>
      case Ok(b) => PrependPrepend(a, b, z);
  }

  function Min(a: int, b: int): int { if a <= b then a else b }
}

/** The two ways hurl can reject a route table while it is being built. */
module Results {

  /** SyntaxError stands for the `StandardError('Fix')` raised by `transform` on a
      parameter body without a colon; UnknownMatcher for the `KeyError` raised by
      `generate_matcher` when a type tag is not in the matcher table. */
  datatype Error = SyntaxError | UnknownMatcher(tag: string)

  datatype Result<T> = Ok(value: T) | Err(error: Error)

  /** Concatenation that stops at the first failure, as Python's left-to-right
      evaluation does: the error of `a` wins over the error of `b`. */
  function Append<T>(a: Result<seq<T>>, b: Result<seq<T>>): (r: Result<seq<T>>)
    ensures r.Ok? <==> a.Ok? && b.Ok?
    ensures r.Ok? ==> r.value == a.value + b.value
    ensures a.Err? ==> r == Err(a.error)
    ensures a.Ok? && b.Err? ==> r == Err(b.error)
  {
    match a
    case Err(e) => Err(e)
    case Ok(x) =>
      match b
      case Err(e) => Err(e)
      case Ok(y) => Ok(x + y)
  }

  /** Prepending two successful pieces one after the other is prepending their concatenation. */
  lemma AppendOkOk<T>(a: seq<T>, b: seq<T>, r: Result<seq<T>>)
    ensures Append(Ok(a), Append(Ok(b), r)) == Append(Ok(a + b), r)
  {
    if r.Ok? {
      assert a + (b + r.value) == a + b + r.value;
    }
  }

  /** Prepending nothing changes nothing. */
  lemma AppendNothing<T>(r: Result<seq<T>>)
    ensures Append(Ok([]), r) == r
  {
    if r.Ok? {
      assert [] + r.value == r.value;
    }
  }

  /** A single successful value as a one-element list. */
  function Single<T>(r: Result<T>): (s: Result<seq<T>>)
    ensures s.Ok? <==> r.Ok?
    ensures s.Ok? ==> s.value == [r.value]
    ensures s.Err? ==> s.error == r.error
  {
    match r
    case Err(e) => Err(e)
    case Ok(x) => Ok([x])
  }

  lemma AppendAssoc<T>(a: Result<seq<T>>, b: Result<seq<T>>, c: Result<seq<T>>)
    ensures Append(Append(a, b), c) == Append(a, Append(b, c))
  {
    if a.Ok? && b.Ok? && c.Ok? {
      assert a.value + b.value + c.value == a.value + (b.value + c.value);
    }
  }
}

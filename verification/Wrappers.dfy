// Option and Result, the two failure-compatible types the model uses, and
// their traversals of a sequence.
module Wrappers {

  datatype Option<+T> = None | Some(value: T) {
    predicate IsFailure() { None? }

    function PropagateFailure<U>(): Option<U>
      requires None?
    {
      None
    }

    function Extract(): T
      requires Some?
    {
      value
    }

    function GetOr(default: T): T {
      if Some? then value else default
    }
  }

  // The second case is a raised exception.
  datatype Result<+T, +E> = Ok(value: T) | Raised(error: E) {
    predicate IsFailure() { Raised? }

    function PropagateFailure<U>(): Result<U, E>
      requires Raised?
    {
      Raised(error)
    }

    function Extract(): T
      requires Ok?
    {
      value
    }
  }

  // A list comprehension whose element expression can raise: the first
  // exception ends it.
  function TryMap<A, B, E>(f: A -> Result<B, E>, xs: seq<A>): Result<seq<B>, E> {
    if xs == [] then Ok([]) else
    var head :- f(xs[0]);
    var tail :- TryMap(f, xs[1..]);
    Ok([head] + tail)
  }

  // The same traversal for a parser that can reject an element.
  function Traverse<A, B>(f: A -> Option<B>, xs: seq<A>): Option<seq<B>> {
    if xs == [] then Some([]) else
    var head :- f(xs[0]);
    var tail :- Traverse(f, xs[1..]);
    Some([head] + tail)
  }

  // Mapping a list in two pieces.
  lemma {:induction false} TryMapConcat<A, B, E>(f: A -> Result<B, E>, xs: seq<A>, ys: seq<A>)
    ensures TryMap(f, xs + ys) ==
      if TryMap(f, xs).Raised? then TryMap(f, xs)
      else if TryMap(f, ys).Raised? then TryMap(f, ys)
      else Ok(TryMap(f, xs).value + TryMap(f, ys).value)
  {
    if xs == [] {
      assert xs + ys == ys;
      if TryMap(f, ys).Ok? {
        assert [] + TryMap(f, ys).value == TryMap(f, ys).value;
      }
    } else {
      assert (xs + ys)[1..] == xs[1..] + ys;
      TryMapConcat(f, xs[1..], ys);
      if TryMap(f, xs).Ok? && TryMap(f, ys).Ok? {
        var head, tail := f(xs[0]).value, TryMap(f, xs[1..]).value;
        assert [head] + (tail + TryMap(f, ys).value) == ([head] + tail) + TryMap(f, ys).value;
      }
    }
  }

  lemma TryMapSingle<A, B, E>(f: A -> Result<B, E>, x: A)
    ensures TryMap(f, [x]) == if f(x).Ok? then Ok([f(x).value]) else Raised(f(x).error)
  {
    assert [x][1..] == [];
    if f(x).Ok? {
      assert [f(x).value] + [] == [f(x).value];
    }
  }
}

/** An immutable container that holds either nothing or one value. */
module Nodes {
  import opened Mappers

  /** `EmptyNode` holds nothing; `ValueNode(held)` holds `held`. */
  datatype Node<T> = EmptyNode | ValueNode(held: T) {

    /** The contained value, or `zero` (the zero value of T) when there is none. */
    function Value(zero: T): (r: T)
      ensures Empty() ==> r == zero
      ensures !Empty() ==> this == ValueNode(r)
    {
      match this
      case EmptyNode => zero
      case ValueNode(v) => v
    }

    /** True exactly when no value is held. */
    function Empty(): (r: bool)
      ensures r <==> this == EmptyNode
    {
      EmptyNode?
    }

    /** The contained value, or the default `d`: the value with `d` as the fallback. */
    function Or(d: T): (r: T)
      ensures r == Value(d)
    {
      match this
      case EmptyNode => d
      case ValueNode(v) => v
    }

    /** The contained value, or what the supplier `f` produces. */
    function OrGet(f: () -> T): (r: T)
      ensures r == Or(f())
    {
      match this
      case EmptyNode => f()
      case ValueNode(v) => v
    }
  }

  /** Converts the contained value with `m`; empty if `n` is empty or `m` fails. */
  function Map<S, T>(n: Node<S>, m: Mapper<S, T>): (r: Node<T>)
    ensures r.ValueNode? <==> !n.Empty() && m(n.held).Some?
    ensures r.ValueNode? ==> m(n.held) == Some(r.held)
  {
    if !n.Empty() then
      match m(n.held)
      case Some(v) => ValueNode(v)
      case None => EmptyNode
    else EmptyNode
  }

  /** The conversion that feeds the result of `f` into `g`. */
  function Then<A, B, C>(f: Mapper<A, B>, g: Mapper<B, C>): Mapper<A, C> {
    a => match f(a) case None => None case Some(b) => g(b)
  }

  lemma EmptyNodeBehaviour<T>(d: T, f: () -> T, zero: T)
    ensures Node<T>.EmptyNode.Empty()
    ensures Node<T>.EmptyNode.Value(zero) == zero
    ensures Node<T>.EmptyNode.Or(d) == d
    ensures Node<T>.EmptyNode.OrGet(f) == f()
  {
  }

  lemma ValueNodeBehaviour<T>(x: T, d: T, f: () -> T, zero: T)
    ensures !ValueNode(x).Empty()
    ensures ValueNode(x).Value(zero) == x
    ensures ValueNode(x).Or(d) == x
    ensures ValueNode(x).OrGet(f) == x
  {
  }

  /** Mapping an empty node gives an empty node whatever the mapper. */
  lemma MapOfEmpty<S, T>(m: Mapper<S, T>)
    ensures Map(Node<S>.EmptyNode, m) == EmptyNode
  {
  }

  /** Mapping a full node succeeds exactly when the mapper does. */
  lemma MapOfValue<S, T>(x: S, m: Mapper<S, T>)
    ensures m(x).Some? ==> Map(ValueNode(x), m) == ValueNode(m(x).value)
    ensures m(x).None? ==> Map(ValueNode(x), m) == EmptyNode
  {
  }

  /** Mapping twice is mapping once with the two conversions chained. */
  lemma MapThen<A, B, C>(n: Node<A>, f: Mapper<A, B>, g: Mapper<B, C>)
    ensures Map(Map(n, f), g) == Map(n, Then(f, g))
  {
  }
}

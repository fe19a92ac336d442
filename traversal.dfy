/**
 * Walking a wrapper's view with its cursors: what a for-each loop
 * (dereference, then `++`, until the cursor equals `end()`) visits, and
 * what a left fold over that walk computes.
 */
module Traversal {
  import opened Wrappers
  import opened Details
  import opened Mopt

  /**
   * A walk from `from` can reach `to` by forward steps without leaving the
   * storage: either they are already equal, or both are real positions
   * in order, no further than one past the last element.
   */
  predicate Walkable<E>(target: Option<Content<E>>, from: Position, to: Position)
  {
    from == to || (from.At? && to.At? && from.index <= to.index <= Extent(target))
  }

  /** Steps left before a walk from `from` meets `to`. */
  function StepsLeft(from: Position, to: Position): nat
  {
    if from.At? && to.At? && from.index <= to.index then to.index - from.index else 0
  }

  /** The elements a for-each loop visits between the cursor positions `from` and `to`. */
  function Visit<E>(target: Option<Content<E>>, from: Position, to: Position): seq<E>
    requires Walkable(target, from, to)
    decreases StepsLeft(from, to)
  {
    if from == to then []
    else [ElementAt(target, from)] + Visit(target, Advanced(from), to)
  }

  /** Walking from any position to one past the last visits the rest of the view, in order. */
  lemma {:induction false} VisitToEnd<E>(target: Option<Content<E>>, i: nat)
    requires i <= Extent(target)
    ensures Walkable(target, At(i), At(Extent(target)))
    ensures Visit(target, At(i), At(Extent(target))) == View(target)[i..]
    decreases Extent(target) - i
  {
    ElementAtIsViewElement(target, i);
    if i < Extent(target) {
      VisitToEnd(target, i + 1);
      assert View(target)[i..] == [View(target)[i]] + View(target)[i + 1..];
    }
  }

  /**
   * The core promise: walking from `begin()` to `end()` visits exactly the
   * view: nothing when empty, the value of a present scalar, and a
   * present container's own elements in order.
   */
  lemma ForEachVisitsView<E>(shape: TypeShape, o: Option<Content<E>>)
    requires WellTyped(shape, o)
    ensures Walkable(o, BeginPosition(shape, o), EndPosition(shape, o))
    ensures Visit(o, BeginPosition(shape, o), EndPosition(shape, o)) == View(o)
  {
    if o.Some? {
      VisitToEnd(o, 0);
    }
  }

  /**
   * `begin() == end()` exactly when the wrapper is empty or holds an empty
   * container; a present scalar never has them equal.
   */
  lemma BeginMeetsEndIff<E>(shape: TypeShape, o: Option<Content<E>>)
    requires WellTyped(shape, o)
    ensures BeginPosition(shape, o) == EndPosition(shape, o)
            <==> o.None? || (o.value.Container? && |o.value.elems| == 0)
    ensures BeginPosition(shape, o) == EndPosition(shape, o) <==> View(o) == []
  {
  }

  /** Every empty wrapper, of any T, has `begin() == end()`, both default cursors. */
  lemma EmptyWrapperIsEmptyWalk<E>(shape: TypeShape)
    ensures WellTyped<E>(shape, None)
    ensures BeginPosition<E>(shape, None) == EndPosition<E>(shape, None) == Singular
    ensures Visit<E>(None, Singular, Singular) == []
  {
  }

  /**
   * A present scalar: `*begin()` is the value, `begin() != end()`, one
   * increment of `begin()` reaches `end()`, and one decrement of `end()`
   * returns to `begin()`.
   */
  lemma ScalarWalk<E>(shape: TypeShape, x: E)
    requires !IsContainerLike(shape)
    ensures WellTyped(shape, Some(Scalar(x)))
    ensures var b, e := BeginPosition(shape, Some(Scalar(x))), EndPosition(shape, Some(Scalar(x)));
            && Dereferenceable(Some(Scalar(x)), b)
            && ElementAt(Some(Scalar(x)), b) == x
            && b != e
            && Advanced(b) == e
            && Retreatable(Some(Scalar(x)), e) && Retreated(e) == b
  {
  }

  /**
   * A present non-empty container: `*begin()` is its first element and
   * `*--end()` its last.
   */
  lemma ContainerEnds<E>(shape: TypeShape, s: seq<E>)
    requires IsContainerLike(shape) && |s| > 0
    ensures WellTyped(shape, Some(Container(s)))
    ensures var b, e := BeginPosition(shape, Some(Container(s))), EndPosition(shape, Some(Container(s)));
            && Dereferenceable(Some(Container(s)), b)
            && ElementAt(Some(Container(s)), b) == s[0]
            && Retreatable(Some(Container(s)), e)
            && ElementAt(Some(Container(s)), Retreated(e)) == s[|s| - 1]
  {
  }

  /** `std::accumulate`'s left fold: `f(...f(f(init, s[0]), s[1])..., s[|s|-1])`. */
  function FoldLeft<A, E>(f: (A, E) -> A, init: A, s: seq<E>): A
  {
    if s == [] then init else f(FoldLeft(f, init, s[..|s| - 1]), s[|s| - 1])
  }

  /** Folding one more element onto a sequence applies the operation once more. */
  lemma FoldLeftSnoc<A, E>(f: (A, E) -> A, init: A, s: seq<E>, x: E)
    ensures FoldLeft(f, init, s + [x]) == f(FoldLeft(f, init, s), x)
  {
    assert (s + [x])[..|s|] == s;
  }

  /**
   * Folding over the walk from `begin()` to `end()`: the initial value when
   * empty, one application to a present scalar, and the fold over a present
   * container's own elements.
   */
  lemma FoldOverWalk<A, E>(shape: TypeShape, o: Option<Content<E>>, f: (A, E) -> A, init: A)
    requires WellTyped(shape, o)
    ensures Walkable(o, BeginPosition(shape, o), EndPosition(shape, o))
    ensures var total := FoldLeft(f, init, Visit(o, BeginPosition(shape, o), EndPosition(shape, o)));
            match o
            case None => total == init
            case Some(Scalar(x)) => total == f(init, x)
            case Some(Container(s)) => total == FoldLeft(f, init, s)
  {
    ForEachVisitsView(shape, o);
    if o.Some? && o.value.Scalar? {
      assert [o.value.x][..0] == [];
    }
  }

  /**
   * A fold over the cursors of `m`, as `std::accumulate(m.begin(), m.end(), init, f)`
   * performs it: dereference, combine, pre-increment, until the cursor equals `end()`.
   */
  method Accumulate<A, E>(m: Moptional<E>, init: A, f: (A, E) -> A) returns (total: A)
    requires m.Valid()
    ensures total == FoldLeft(f, init, View(m.internal))
  {
    var first := m.Begin();
    var last := m.End();
    ghost var target, stop := m.internal, last.underlying;
    ForEachVisitsView(m.shape, target);
    ghost var visited: seq<E> := [];
    total := init;
    while first.NotEquals(last)
      invariant first != last && first.target == target && last.underlying == stop
      invariant Walkable(target, first.underlying, stop)
      invariant visited + Visit(target, first.underlying, stop) == View(target)
      invariant total == FoldLeft(f, init, visited)
      decreases StepsLeft(first.underlying, stop)
    {
      VisitStep(target, first.underlying, stop, visited);
      var x := first.Deref();
      FoldLeftSnoc(f, init, visited, x);
      total := f(total, x);
      visited := visited + [x];
      var _ := first.PreIncrement();
    }
    assert visited + [] == visited;
  }

  /**
   * One iteration of a for-each loop: when the cursor has not met the end,
   * its element comes first and the rest of the walk continues from `++`.
   */
  lemma VisitStep<E>(target: Option<Content<E>>, from: Position, to: Position, visited: seq<E>)
    requires Walkable(target, from, to) && from != to
    ensures Dereferenceable(target, from) && Walkable(target, Advanced(from), to)
    ensures visited + Visit(target, from, to)
            == (visited + [ElementAt(target, from)]) + Visit(target, Advanced(from), to)
  {
  }

  /** The values `std::accumulate` with `+` over ints sums. */
  function Sum(s: seq<int>): int
  {
    FoldLeft(Plus, 0, s)
  }

  /** The default operation of `std::accumulate` on ints. */
  function Plus(acc: int, v: int): int
  {
    acc + v
  }

  /** `std::accumulate` over a wrapped `{0, 1, 2, 3, 4, 5}` with `+` and 0 gives 15. */
  lemma SumZeroToFive()
    ensures Sum([0, 1, 2, 3, 4, 5]) == 15
  {
    var s := [0, 1, 2, 3, 4, 5];
    assert s[..0] + [0] == s[..1] && s[..1] + [1] == s[..2] && s[..2] + [2] == s[..3];
    assert s[..3] + [3] == s[..4] && s[..4] + [4] == s[..5] && s[..5] + [5] == s;
    FoldLeftSnoc(Plus, 0, s[..0], 0);
    FoldLeftSnoc(Plus, 0, s[..1], 1);
    FoldLeftSnoc(Plus, 0, s[..2], 2);
    FoldLeftSnoc(Plus, 0, s[..3], 3);
    FoldLeftSnoc(Plus, 0, s[..4], 4);
    FoldLeftSnoc(Plus, 0, s[..5], 5);
  }
}

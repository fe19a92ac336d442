/**
 * `Moptional<T>`: an optional value that can be walked as a sequence, and
 * `MoptIterator`, the cursor its `begin()` and `end()` hand out.
 *
 * The wrapped type T is described by its `TypeShape` (what the structural
 * test sees) and its values by `Content`: a container-like T holds the
 * elements its own iteration visits, any other T holds one scalar.
 */
module Mopt {
  import opened Wrappers
  import opened Details

  /** A value of the wrapped type T. */
  datatype Content<E> = Scalar(x: E) | Container(elems: seq<E>)

  /** The value has the form that T's shape implies (what the C++ type system guarantees). */
  predicate Fits<E>(shape: TypeShape, c: Content<E>)
  {
    IsContainerLike(shape) <==> c.Container?
  }

  /** The optional storage holds, if anything, a value of the right form. */
  predicate WellTyped<E>(shape: TypeShape, o: Option<Content<E>>)
  {
    o.Some? ==> Fits(shape, o.value)
  }

  /**
   * The sequence view the wrapper promises: nothing when empty, the one
   * value of a present scalar, the elements in order of a present container.
   */
  function View<E>(o: Option<Content<E>>): seq<E>
  {
    match o
    case None => []
    case Some(Scalar(x)) => [x]
    case Some(Container(s)) => s
  }

  /** Raised by the checked accessor `value()` of an empty wrapper. */
  datatype AccessError = BadOptionalAccess

  // ---------------------------------------------------------------------
  // Positions

  /**
   * The underlying position of a cursor. `Singular` is a default-constructed
   * one (a null pointer, or a value-initialised container iterator);
   * `At(i)` is i steps after the first element of the storage the cursor
   * walks: for a scalar, `At(0)` is the value's address and `At(1)` one past it.
   */
  datatype Position = Singular | At(index: nat)

  /**
   * How many positions of `target` a cursor may dereference: one object
   * behind a pointer, or every element of a container.
   */
  function Extent<E>(target: Option<Content<E>>): nat
  {
    match target
    case None => 0
    case Some(Scalar(_)) => 1
    case Some(Container(s)) => |s|
  }

  /** Dereferencing (and stepping forward from) `p` is defined. */
  predicate Dereferenceable<E>(target: Option<Content<E>>, p: Position)
  {
    p.At? && p.index < Extent(target)
  }

  /** Stepping back from `p` is defined: `p` is after the first position and at most one past the last. */
  predicate Retreatable<E>(target: Option<Content<E>>, p: Position)
  {
    p.At? && 0 < p.index <= Extent(target)
  }

  /** `*p`: the pointed-to scalar, or the container element at that position. */
  function ElementAt<E>(target: Option<Content<E>>, p: Position): E
    requires Dereferenceable(target, p)
  {
    match target.value
    case Scalar(x) => x
    case Container(s) => s[p.index]
  }

  /** The view has one element per dereferenceable position, and each is the element there. */
  lemma ElementAtIsViewElement<E>(target: Option<Content<E>>, i: nat)
    ensures |View(target)| == Extent(target)
    ensures i < Extent(target) ==> ElementAt(target, At(i)) == View(target)[i]
  {
  }

  /** `++p` on a pointer or an iterator. */
  function Advanced(p: Position): Position
    requires p.At?
  {
    At(p.index + 1)
  }

  /** `--p` on a pointer or an iterator. */
  function Retreated(p: Position): Position
    requires p.At? && p.index > 0
  {
    At(p.index - 1)
  }

  /** Where `begin()` puts its cursor, branch by branch as the source decides. */
  function BeginPosition<E>(shape: TypeShape, o: Option<Content<E>>): Position
    requires WellTyped(shape, o)
  {
    if IsContainerLike(shape) then
      if o.Some? then At(0) else Singular         // internal_->begin(), or a default cursor
    else
      if o.Some? then At(0) else Singular         // &*internal_, or a null pointer
  }

  /** Where `end()` puts its cursor. */
  function EndPosition<E>(shape: TypeShape, o: Option<Content<E>>): Position
    requires WellTyped(shape, o)
  {
    if IsContainerLike(shape) then
      if o.Some? then At(|o.value.elems|) else Singular   // internal_->end(), or a default cursor
    else
      if o.Some? then At(1) else Singular                  // one past &*internal_, or a null pointer
  }

  // ---------------------------------------------------------------------
  // The cursor

  /**
   * `MoptIterator<T, PointerOrIterator>`: one underlying position, stepped
   * in place. `target` is what that pointer or iterator points into; the
   * cursor does not own it.
   */
  class MoptIterator<E> {
    const target: Option<Content<E>>
    var underlying: Position

    /** `MoptIterator()`: a value-initialised position that points nowhere. */
    constructor Default()
      ensures target == None && underlying == Singular
    {
      target := None;
      underlying := Singular;
    }

    /** `MoptIterator(underlying)`. */
    constructor (target: Option<Content<E>>, underlying: Position)
      ensures this.target == target && this.underlying == underlying
    {
      this.target := target;
      this.underlying := underlying;
    }

    /** `operator*`: the element at the current position. */
    method Deref() returns (x: E)
      requires Dereferenceable(target, underlying)
      ensures x == ElementAt(target, underlying)
      ensures x == View(target)[underlying.index]
    {
      x := ElementAt(target, underlying);
      ElementAtIsViewElement(target, underlying.index);
    }

    /** Prefix `operator++`: moves the position one forward and returns this same cursor. */
    method PreIncrement() returns (self: MoptIterator<E>)
      requires Dereferenceable(target, underlying)
      modifies this
      ensures self == this
      ensures underlying == Advanced(old(underlying))
    {
      underlying := Advanced(underlying);
      self := this;
    }

    /** Postfix `operator++`: a new cursor at the old position; this one moves forward. */
    method PostIncrement() returns (prior: MoptIterator<E>)
      requires Dereferenceable(target, underlying)
      modifies this
      ensures fresh(prior)
      ensures prior.target == target && prior.underlying == old(underlying)
      ensures underlying == Advanced(old(underlying))
    {
      var was := underlying;
      underlying := Advanced(underlying);
      prior := new MoptIterator(target, was);
    }

    /** Prefix `operator--`: moves the position one back and returns this same cursor. */
    method PreDecrement() returns (self: MoptIterator<E>)
      requires Retreatable(target, underlying)
      modifies this
      ensures self == this
      ensures underlying == Retreated(old(underlying))
      ensures Dereferenceable(target, underlying)
    {
      underlying := Retreated(underlying);
      self := this;
    }

    /** Postfix `operator--`: a new cursor at the old position; this one moves back. */
    method PostDecrement() returns (prior: MoptIterator<E>)
      requires Retreatable(target, underlying)
      modifies this
      ensures fresh(prior)
      ensures prior.target == target && prior.underlying == old(underlying)
      ensures underlying == Retreated(old(underlying))
    {
      var was := underlying;
      underlying := Retreated(underlying);
      prior := new MoptIterator(target, was);
    }

    /** `operator==`: the underlying positions are equal. */
    predicate Equals(other: MoptIterator<E>)
      reads this, other
    {
      underlying == other.underlying
    }

    /** `operator!=`: the negation of `operator==`. */
    predicate NotEquals(other: MoptIterator<E>)
      reads this, other
      ensures NotEquals(other) <==> underlying != other.underlying
    {
      !Equals(other)
    }
  }

  // ---------------------------------------------------------------------
  // The wrapper

  /** `Moptional<T>`: exactly one `std::optional<T>` and nothing else. */
  class Moptional<E> {
    /** The shape of T, fixed by the type. */
    const shape: TypeShape
    /** `internal_`. */
    var internal: Option<Content<E>>

    ghost predicate Valid()
      reads this
    {
      WellTyped(shape, internal)
    }

    /** `Moptional()`: constructed empty. */
    constructor Empty(shape: TypeShape)
      ensures Valid()
      ensures this.shape == shape && internal == None
    {
      this.shape := shape;
      internal := None;
    }

    /** `Moptional(value)`: constructed holding a value of T. */
    constructor Holding(shape: TypeShape, c: Content<E>)
      requires Fits(shape, c)
      ensures Valid()
      ensures this.shape == shape && internal == Some(c)
    {
      this.shape := shape;
      internal := Some(c);
    }

    /** `begin()`: a cursor at the first position of the view. */
    method Begin() returns (it: MoptIterator<E>)
      requires Valid()
      ensures fresh(it)
      ensures it.target == internal && it.underlying == BeginPosition(shape, internal)
    {
      if IsContainerLike(shape) {
        if internal.Some? {
          it := new MoptIterator(internal, At(0));
        } else {
          it := new MoptIterator.Default();
        }
      } else {
        if internal.Some? {
          it := new MoptIterator(internal, At(0));
        } else {
          it := new MoptIterator.Default();
        }
      }
    }

    /** `end()`: a cursor one past the last position of the view. */
    method End() returns (it: MoptIterator<E>)
      requires Valid()
      ensures fresh(it)
      ensures it.target == internal && it.underlying == EndPosition(shape, internal)
    {
      if IsContainerLike(shape) {
        if internal.Some? {
          it := new MoptIterator(internal, At(|internal.value.elems|));
        } else {
          it := new MoptIterator.Default();
        }
      } else {
        if internal.Some? {
          it := new MoptIterator(internal, At(1));
        } else {
          it := new MoptIterator.Default();
        }
      }
    }

    /** `has_value()`. */
    predicate HasValue()
      reads this
    {
      internal.Some?
    }

    /** `explicit operator bool`: the optional's own conversion, which agrees with `has_value()`. */
    function ToBool(): (b: bool)
      reads this
      ensures b == HasValue()
    {
      !internal.None?
    }

    /** `value()`: the contained value, or `bad_optional_access` when there is none. */
    function Value(): (r: Result<Content<E>, AccessError>)
      reads this
      ensures r.Failure? <==> !HasValue()
      ensures r.Success? ==> internal == Some(r.value)
    {
      match internal
      case None => Failure(BadOptionalAccess)
      case Some(c) => Success(c)
    }

    /** `operator*`: unchecked access; the caller guarantees presence. */
    function Get(): (c: Content<E>)
      requires HasValue()
      reads this
      ensures Value() == Success(c)
    {
      internal.value
    }

    /** `reset()`: destroys any contained value. */
    method Reset()
      requires Valid()
      modifies this
      ensures Valid()
      ensures internal == None && !HasValue()
    {
      internal := None;
    }

    /**
     * `emplace(args...)`, and the `initializer_list` overload: replaces any
     * contained value by the one T's constructor builds (`c`) and returns it.
     */
    method Emplace(c: Content<E>) returns (r: Content<E>)
      requires Valid() && Fits(shape, c)
      modifies this
      ensures Valid()
      ensures internal == Some(c) && HasValue()
      ensures r == c && Value() == Success(r)
    {
      internal := Some(c);
      r := c;
    }

    /** `swap(other)`: exchanges presence and contents with another wrapper of the same T. */
    method Swap(other: Moptional<E>)
      requires Valid() && other.Valid() && other.shape == shape
      modifies this, other
      ensures Valid() && other.Valid()
      ensures internal == old(other.internal) && other.internal == old(internal)
    {
      var mine := internal;
      internal := other.internal;
      other.internal := mine;
    }
  }
}

# moptional in Dafny

A model of `mopt::Moptional<T>` (include/mopt/moptional.hpp): a wrapper around
`std::optional<T>` that can also be walked as a sequence. An empty wrapper walks
as the empty sequence. A present scalar walks as the one-element sequence
holding the value. A present container walks as the container's own elements,
in order. Which of the last two applies is decided at compile time by the
structural test `details::IsContainerLike<T>()`.

Files and modules:

- `wrappers.dfy` (`Wrappers`): `Option`, the model of `std::optional` storage, and `Result`.
- `details.dfy` (`Details`): the structural test. A type T is described by a
  `TypeShape`, the five capabilities the probe looks at. `AllWellFormed` models
  substitution of the comma expression in the probing overload. `ResolveIsIterable`
  models overload resolution between the `int` overload and the `...` fallback.
  `IsContainerLike` reads off the chosen overload's `true_type`/`false_type`.
- `moptional.dfy` (`Mopt`): T's values as `Content` (`Scalar(x)` or `Container(elems)`).
  `View` is the sequence the wrapper promises. `Position` is the cursor's underlying
  position: `Singular` for a default-constructed pointer or iterator, or `At(i)`.
  For a scalar, `At(0)` is the value's address and `At(1)` is one past it. For a
  container, `At(i)` is its i-th iterator position. `BeginPosition` and
  `EndPosition` follow the four branches of `begin()` and `end()`.
  `MoptIterator` is a class whose one mutable field `underlying` is stepped in
  place by `++` and `--`. `Moptional` is a class whose one mutable field
  `internal` is changed by `reset`, `emplace` and `swap`. `const shape` stands
  for the type T.
- `traversal.dfy` (`Traversal`): `Visit` is what a for-each loop visits from one
  cursor position to another: dereference, `++`, stop when the cursor equals
  the end. The lemmas relate that walk to `View`. `Accumulate` runs such a loop
  over real `MoptIterator` objects.
- `scenarios.dfy` (`Scenarios`): client methods shaped like tests/simple.cpp
  and tests/stl_algos.cpp. They show what a caller can derive from the contracts alone.

`MoptIterator.Equals` (`operator==`, include/mopt/moptional.hpp:113-115),
`Moptional.HasValue` (`has_value()`, line 192) and the position functions
(`ElementAt`, `Advanced`, `Retreated`, `Extent`) are definitions. The members
in the table below state the properties of these definitions.

## Model

| member | source | states |
|---|---|---|
| `Details.AllWellFormed` | include/mopt/moptional.hpp:20-24 | the probe's comma expression substitutes exactly when every one of its operands is well-formed |
| `Details.ResolveIsIterable` | include/mopt/moptional.hpp:20-31 | the probing `int` overload is chosen exactly when all three probe expressions (`begin != end`, `++begin`, `*begin`) are well-formed; otherwise the `...` fallback is chosen |
| `Details.IsContainerLike` | include/mopt/moptional.hpp:29-32 | true exactly when begin and end exist, compare with `!=`, and the begin position is pre-incrementable and dereferenceable; any missing capability gives false, not a compile error |
| `Details.IntIsScalarVectorIsContainer` | tests/simple.cpp:14-15 | `int` is not container-like and `std::vector<int>` is |
| `Details.IncomparableEndIsScalar` | include/mopt/moptional.hpp:20-27 | a type whose begin and end positions cannot be compared is classified as scalar |
| `Mopt.MoptIterator.Default` | include/mopt/moptional.hpp:81 | a default cursor has the singular position and points at nothing |
| `Mopt.MoptIterator.constructor` | include/mopt/moptional.hpp:83-84 | a cursor built from a position holds exactly that position |
| `Mopt.MoptIterator.Deref` | include/mopt/moptional.hpp:87 | at a dereferenceable position, returns the element stored there, which is the view's element at that index |
| `Mopt.MoptIterator.PreIncrement` | include/mopt/moptional.hpp:97-100 | moves the position one forward and returns the same cursor |
| `Mopt.MoptIterator.PostIncrement` | include/mopt/moptional.hpp:102 | returns a new cursor at the old position and moves this cursor one forward |
| `Mopt.MoptIterator.PreDecrement` | include/mopt/moptional.hpp:104-107 | moves the position one back, which is then dereferenceable, and returns the same cursor |
| `Mopt.MoptIterator.PostDecrement` | include/mopt/moptional.hpp:109 | returns a new cursor at the old position and moves this cursor one back |
| `Mopt.MoptIterator.NotEquals` | include/mopt/moptional.hpp:117-119 | `!=` holds exactly when the underlying positions differ, as the negation of `==` |
| `Mopt.Moptional.Empty` | include/mopt/moptional.hpp:175-176 | the wrapper is constructed holding nothing |
| `Mopt.Moptional.Holding` | include/mopt/moptional.hpp:175-176 | the wrapper is constructed holding the given value of T |
| `Mopt.Moptional.Begin` | include/mopt/moptional.hpp:131-146 | returns a new cursor into the wrapper's storage at the begin position |
| `Mopt.Moptional.End` | include/mopt/moptional.hpp:148-167 | returns a new cursor into the wrapper's storage at the end position |
| `Mopt.Moptional.ToBool` | include/mopt/moptional.hpp:190 | `operator bool` always equals `has_value()` |
| `Mopt.Moptional.Value` | include/mopt/moptional.hpp:194-200 | fails with `bad_optional_access` exactly when no value is present; otherwise returns the contained value |
| `Mopt.Moptional.Get` | include/mopt/moptional.hpp:182-188 | unchecked `operator*`: requires presence and then agrees with `value()` |
| `Mopt.Moptional.Reset` | include/mopt/moptional.hpp:202 | afterwards the wrapper holds nothing and `has_value()` is false |
| `Mopt.Moptional.Emplace` | include/mopt/moptional.hpp:204-213 | afterwards the wrapper holds the new value, and the returned value equals what `value()` now returns |
| `Mopt.Moptional.Swap` | include/mopt/moptional.hpp:215-219 | the two wrappers exchange presence and contents; nothing else changes |
| `Traversal.VisitToEnd` | include/mopt/moptional.hpp:87-100 | walking by `*` and `++` from position i to one past the last visits the view from i on, in order |
| `Traversal.VisitStep` | include/mopt/moptional.hpp:87-100 | while a cursor has not met the end, it is dereferenceable, its element is the next one visited, and the walk goes on from its `++` |
| `Traversal.ForEachVisitsView` | include/mopt/moptional.hpp:131-167 | walking from `begin()` to `end()` stays in the storage and visits exactly the view: nothing, the one scalar, or the container's elements in order |
| `Traversal.BeginMeetsEndIff` | include/mopt/moptional.hpp:131-167 | `begin() == end()` exactly when the wrapper is empty or holds an empty container, that is, exactly when the view is empty |
| `Traversal.EmptyWrapperIsEmptyWalk` | include/mopt/moptional.hpp:136-164 | for every T, an empty wrapper's begin and end are both the default cursor, and a walk between them visits nothing |
| `Traversal.ScalarWalk` | include/mopt/moptional.hpp:139-166 | for a present scalar, `*begin()` is the value, `begin() != end()`, one `++` of begin reaches end, and one `--` of end returns to begin |
| `Traversal.ContainerEnds` | tests/simple.cpp:22-23 | for a present non-empty container, `*begin()` is its first element and `*--end()` its last |
| `Traversal.FoldOverWalk` | tests/stl_algos.cpp:16-35 | a fold over the walk gives the initial value when empty, one application for a scalar, and the container's own fold for a container |
| `Traversal.Accumulate` | tests/stl_algos.cpp:31-35 | a fold loop over the wrapper's cursors computes the fold over the view |
| `Traversal.SumZeroToFive` | tests/stl_algos.cpp:31-35 | summing `{0,1,2,3,4,5}` gives 15 |

## Left out

- `Moptional::operator->` (include/mopt/moptional.hpp:178-180) and `MoptIterator::operator->` (lines 89-95): they return addresses, and the model has no addresses. For the container branch, the second one also needs the element type to support `->`.
- `details::IteratorType` and the `iterator_traits` typedefs and `static_assert`s (lines 34-39, 61-76) are type-level only. The one `Position` type serves both the pointer and the iterator instantiation.
- The const and `&&` overloads of `value()` and `operator*` are collapsed into `Value` and `Get`. The `noexcept` specifications are not modelled.
- Mopt.Moptional.Emplace: takes the value T's constructor builds from the arguments. The `initializer_list` overload is the same call with a list-built value. How T builds itself from a list (a `std::set` sorts and removes duplicates) belongs to T and is not modelled.
- Cursor invalidation: a cursor's `target` is the storage as it was when `begin()` or `end()` was called. Using a cursor after `reset`, `emplace` or `swap` is undefined behaviour in the source and is not modelled.
- Mopt.MoptIterator.NotEquals: compares positions only, as the source does. Cursors from two different wrappers at the same index therefore compare equal in the model, while two real pointers into different objects do not. In C++, two pointers into different objects compare unequal, and comparing iterators of different containers is undefined behaviour.
- Mopt.MoptIterator.Deref, Mopt.Moptional.Value, Mopt.Moptional.Get and Mopt.Moptional.Emplace return copies of the stored value. The source returns references (`MoptIterator::operator*` at line 87, `operator*` at 184, `value()` at 194, `emplace` at 205), so a caller can assign through them, e.g. `*m.begin() = 7` or a `for_each` with a `T&` visitor. Writing through those references, and so changing the stored scalar or a container's elements in place, is not modelled.
- Out-of-range cursor use (dereferencing or `++` at end or at the singular position, `--` at begin) is undefined behaviour in the source. It appears only as preconditions.
- Mopt.MoptIterator.PreDecrement: allowed for every container. A container whose iterators are forward-only would fail to compile `--`, and the model does not distinguish it.
- Copying and moving a wrapper, and destruction, are value semantics of `std::optional` and are not modelled separately.
- The doctest harness and `std::for_each`/`std::accumulate` are not modelled as library code. `Traversal.Accumulate` and the `Scenarios` methods stand in for the loops they run.

## Notes on the source

- The structural test probes `begin(t) != end(t)`, `++` on the begin position and `*begin(t)` cast to `void`. It never probes `==`, although `MoptIterator::operator==` needs `==` on the underlying positions. The model follows the code: `positionsComparable` means `!=`.
- The test looks up `begin(t)` through ADL or `std::begin`. `IteratorType` and `Moptional::begin()` call the member `.begin()`. A type with only a free `begin` passes the test and then fails to compile in `begin()`. This is a compile-time effect and is noted here only.

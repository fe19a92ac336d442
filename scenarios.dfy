/**
 * Client code in the shape of the repository's own usage examples: what a
 * caller can conclude from the contracts of `Moptional` and `MoptIterator`
 * alone.
 */
module Scenarios {
  import opened Wrappers
  import opened Details
  import opened Mopt
  import opened Traversal

  /** A wrapped `int` walked by hand: `*begin()` is 4, and one `++` reaches `end()`. */
  method IntUsage()
  {
    IntIsScalarVectorIsContainer();
    var intMopt := new Moptional<int>.Holding(IntShape, Scalar(4));

    var first := intMopt.Begin();
    var v := first.Deref();
    assert v == 4;

    var startIt := intMopt.Begin();
    var endIt := intMopt.End();
    assert startIt.NotEquals(endIt);
    v := startIt.Deref();
    assert v == 4;
    startIt := startIt.PreIncrement();
    assert startIt.Equals(endIt);
  }

  /** A wrapped vector of eight ints: size 8, `*begin()` is 0 and `*--end()` is 7. */
  method VectorUsage()
  {
    IntIsScalarVectorIsContainer();
    var vecMopt := new Moptional<int>.Holding(VectorShape, Container([0, 1, 2, 3, 4, 5, 6, 7]));

    assert |View(vecMopt.internal)| == 8;
    var first := vecMopt.Begin();
    var v := first.Deref();
    assert v == 0;
    var last := vecMopt.End();
    last := last.PreDecrement();
    v := last.Deref();
    assert v == 7;
  }

  /** A wrapped set of strings: empty, then emplaced from an empty list, then from two words. */
  method StringSetUsage()
  {
    IntIsScalarVectorIsContainer();
    var strSetMopt := new Moptional<string>.Empty(VectorShape);
    var sFirst := strSetMopt.Begin();
    var sLast := strSetMopt.End();
    assert sFirst.Equals(sLast);
    var _ := strSetMopt.Emplace(Container([]));
    sFirst := strSetMopt.Begin();
    sLast := strSetMopt.End();
    assert sFirst.Equals(sLast);

    var _ := strSetMopt.Emplace(Container(["monadic", "opt"]));
    sFirst := strSetMopt.Begin();
    sLast := strSetMopt.End();
    assert sFirst.NotEquals(sLast);
    var word := sFirst.Deref();
    assert word == "monadic";
    var _ := sFirst.PostIncrement();
    assert sFirst.NotEquals(sLast);
    word := sFirst.Deref();
    assert word == "opt";
    var _ := sFirst.PostIncrement();
    assert sFirst.Equals(sLast);
  }

  /** Counting and summing over wrappers with `Accumulate`. */
  method StlAlgorithms()
  {
    IntIsScalarVectorIsContainer();
    var count := (n: int, _: int) => n + 1;

    var intMopt := new Moptional<int>.Holding(IntShape, Scalar(3));
    var visits := Accumulate(intMopt, 0, count);
    assert visits == 1;

    var defaultIntMopt := new Moptional<int>.Empty(IntShape);
    visits := Accumulate(defaultIntMopt, 0, count);
    assert visits == 0;

    var vecMopt := new Moptional<int>.Holding(VectorShape, Container([0, 1, 2, 3, 4, 5]));
    var total := Accumulate(vecMopt, 0, Plus);
    SumZeroToFive();
    assert total == 15;

    var strMopt := new Moptional<string>.Empty(VectorShape);
    var words := Accumulate(strMopt, 0, (n: int, _: string) => n + 1);
    assert words == 0;
    var _ := strMopt.Emplace(Container([]));
    words := Accumulate(strMopt, 0, (n: int, _: string) => n + 1);
    assert words == 0;
  }
}

/**
 * The structural test that decides, for a wrapped type T, whether the
 * sequence view walks T's own elements ("container-like") or a single
 * stored value.  In the source the test is compile-time overload
 * resolution; here T is described by the capabilities the test probes.
 */
module Details {

  /** The parts of a type's interface that the structural test looks at. */
  datatype TypeShape = TypeShape(
    hasBegin: bool,              // `begin(t)` resolves (member, ADL or std::begin)
    hasEnd: bool,                // `end(t)` resolves
    positionsComparable: bool,   // the begin and end positions compare with `!=`
    preIncrementable: bool,      // `++p` is well-formed for an lvalue p of begin's type
    dereferenceable: bool)       // `*begin(t)` is well-formed and can be cast to void

  /** The three sub-expressions of the comma expression in the probing overload's return type. */
  datatype Probe = BeginNotEqualEnd | PreIncrementBegin | DereferenceBegin

  /** The probe sequence, in the order the probing overload states it. */
  const IterableProbe: seq<Probe> := [BeginNotEqualEnd, PreIncrementBegin, DereferenceBegin]

  /** Whether one probe expression is well-formed for a type of the given shape. */
  predicate WellFormed(shape: TypeShape, e: Probe)
  {
    match e
    case BeginNotEqualEnd => shape.hasBegin && shape.hasEnd && shape.positionsComparable
    case PreIncrementBegin => shape.hasBegin && shape.preIncrementable
    case DereferenceBegin => shape.hasBegin && shape.dereferenceable
  }

  /**
   * Substitution of a comma expression succeeds exactly when every operand
   * is well-formed; any ill-formed operand removes the overload (SFINAE)
   * instead of failing to compile.
   */
  function AllWellFormed(shape: TypeShape, probes: seq<Probe>): (ok: bool)
    ensures ok <==> forall i :: 0 <= i < |probes| ==> WellFormed(shape, probes[i])
  {
    if probes == [] then true
    else WellFormed(shape, probes[0]) && AllWellFormed(shape, probes[1..])
  }

  /** The two overloads of `IsIterable`: the probing `int` one and the `...` fallback. */
  datatype Overload = ProbingOverload | EllipsisFallback

  /**
   * Overload resolution for the call `IsIterable<T>(0)`: the argument `0`
   * matches `int` exactly, so the probing overload wins whenever it
   * survives substitution; otherwise only the fallback remains.
   */
  function ResolveIsIterable(shape: TypeShape): (chosen: Overload)
    ensures chosen == ProbingOverload <==> forall e :: e in IterableProbe ==> WellFormed(shape, e)
  {
    if AllWellFormed(shape, IterableProbe) then ProbingOverload else EllipsisFallback
  }

  /**
   * `IsContainerLike<T>()`: the value of the chosen overload's return type
   * (`std::true_type` for the probing one, `std::false_type` for the fallback).
   * It holds exactly when every capability is present, and fails safely
   * (false, not a compile error) when any one of them is missing.
   */
  function IsContainerLike(shape: TypeShape): (b: bool)
    ensures b <==> shape.hasBegin && shape.hasEnd && shape.positionsComparable
                   && shape.preIncrementable && shape.dereferenceable
  {
    assert IterableProbe[0] == BeginNotEqualEnd && IterableProbe[1] == PreIncrementBegin
        && IterableProbe[2] == DereferenceBegin;
    ResolveIsIterable(shape) == ProbingOverload
  }

  /** `int`: no begin/end at all. */
  const IntShape := TypeShape(false, false, false, false, false)

  /** `std::vector<int>` (and `std::set`, `std::string`): every capability present. */
  const VectorShape := TypeShape(true, true, true, true, true)

  /** The classification the tests expect for `int` and `std::vector<int>`. */
  lemma IntIsScalarVectorIsContainer()
    ensures !IsContainerLike(IntShape)
    ensures IsContainerLike(VectorShape)
  {
  }

  /** A type that has begin and end positions which cannot be compared is classified as scalar. */
  lemma IncomparableEndIsScalar(shape: TypeShape)
    requires shape.hasBegin && shape.hasEnd && !shape.positionsComparable
    ensures !IsContainerLike(shape)
  {
  }
}

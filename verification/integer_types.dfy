/**
 * The integer value wrappers `SizeBound<BOUND>` and
 * `StrictlyPositiveOddInteger<T>`, and the `vector_below_capacity` assertion.
 * A vector is reduced to its size and capacity.
 */
module IntegerTypes {
  import opened Wrappers
  import opened Status
  import opened Text
  import opened Violation
  import opened Enforcement
  import opened RangeChecks

  /** `SizeBound<BOUND>`: a `size_t` no greater than `bound`. */
  datatype SizeBound = SizeBound(bound: SizeT, value: SizeT) {
    predicate Valid() { value <= bound }
  }

  /** The check `SizeBound(size_t r)` enforces: r in [0, BOUND]. */
  function SizeBoundCheck(bound: SizeT, r: SizeT): (s: ReturnStatus)
    ensures s.status <==> SizeBound(bound, r).Valid()
  {
    InRangeClosedClosedSize(r, 0, bound)
  }

  /** `SizeBound<BOUND>(size_t r)` */
  function MakeSizeBound(cfg: Config, site: CallSite, bound: SizeT, r: SizeT)
    : (res: Result<SizeBound, ContractViolation>)
    ensures res.Success? ==> res.value.value == r && res.value.bound == bound
    ensures res.Success? <==> cfg.level == Off || r <= bound
    ensures res.Failure? ==> res.error.comment == SizeBoundCheck(bound, r).comment
  {
    Construct(cfg, site, DefaultTier, SizeBoundCheck(bound, r), SizeBound(bound, r))
  }

  /** Both ends of [0, BOUND] are accepted, and the first value above is not. */
  lemma SizeBoundEnds(cfg: Config, site: CallSite, bound: SizeT)
    requires cfg.level != Off
    ensures MakeSizeBound(cfg, site, bound, 0).Success?
    ensures MakeSizeBound(cfg, site, bound, bound).Success?
    ensures bound + 1 < 0x1_0000_0000_0000_0000 ==> MakeSizeBound(cfg, site, bound, bound + 1).Failure?
  {
  }

  /** The expectations of the `SizeBound<10>` test. */
  lemma SizeBoundTestCases(site: CallSite)
    ensures MakeSizeBound(Config(Default, ContinuationOn), site, 10, 11).Failure?
    ensures Assign(SizeBound(10, 0), MakeSizeBound(Config(Default, ContinuationOn), site, 10, 15)).value
         == SizeBound(10, 0)
    ensures Assign(SizeBound(10, 0), MakeSizeBound(Config(Default, ContinuationOn), site, 10, 5))
         == Assigned(SizeBound(10, 5), None)
  {
  }

  /**
   * `StrictlyPositiveOddInteger<T>` for any integral `T`; the integer is
   * unbounded here, which covers both signed and unsigned instantiations.
   */
  datatype StrictlyPositiveOddInteger = StrictlyPositiveOddInteger(value: int) {
    predicate Valid() { value > 0 && value % 2 == 1 }
  }

  /** `r & 1` in two's complement: the lowest bit, also for negative `r`. */
  function LowBit(r: int): (b: int)
    ensures b == 0 || b == 1
    ensures (r - b) % 2 == 0
  {
    r % 2
  }

  /**
   * The check `StrictlyPositiveOddInteger(T r)` enforces: `r > 0` and the
   * lowest bit set. The comment is empty unless the build is AUDIT.
   */
  function OddCheck(level: BuildLevel, r: int): (s: ReturnStatus)
    ensures s.status <==> StrictlyPositiveOddInteger(r).Valid()
    ensures level != Audit ==> s.comment == []
    ensures level == Audit ==> s.comment == IntToString(r) + " must be strictly positive and odd."
  {
    ReturnStatus(ContractComment(level, "", IntToString(r) + " must be strictly positive and odd."),
                 r > 0 && LowBit(r) == 1)
  }

  /** `StrictlyPositiveOddInteger(T r)` */
  function MakeStrictlyPositiveOddInteger(cfg: Config, site: CallSite, r: int)
    : (res: Result<StrictlyPositiveOddInteger, ContractViolation>)
    ensures res.Success? ==> res.value.value == r
    ensures res.Success? <==> cfg.level == Off || (r > 0 && r % 2 == 1)
    ensures res.Failure? ==> res.error.comment == OddCheck(cfg.level, r).comment
  {
    Construct(cfg, site, DefaultTier, OddCheck(cfg.level, r), StrictlyPositiveOddInteger(r))
  }

  /**
   * Negative odd numbers have their low bit set but are rejected by the sign
   * test; every even number is rejected by the low bit.
   */
  lemma OddCheckRejects(level: BuildLevel, r: int)
    ensures r < 0 && r % 2 != 0 ==> LowBit(r) == 1 && !OddCheck(level, r).status
    ensures r % 2 == 0 ==> !OddCheck(level, r).status
    ensures OddCheck(level, r).status ==> OddCheck(level, r + 2).status
  {
  }

  /** The expectations of the `StrictlyPositiveOddInteger` test. */
  lemma OddIntegerTestCases(site: CallSite)
    ensures MakeStrictlyPositiveOddInteger(Config(Default, ContinuationOn), site, 2).Failure?
    ensures Assign(StrictlyPositiveOddInteger(1), MakeStrictlyPositiveOddInteger(Config(Default, ContinuationOn), site, 2))
         .violation.Some?
    ensures Assign(StrictlyPositiveOddInteger(1), MakeStrictlyPositiveOddInteger(Config(Default, ContinuationOn), site, 5))
         == Assigned(StrictlyPositiveOddInteger(5), None)
  {
  }

  /** `assertions::vector_below_capacity(v)` for a vector of `size` elements and `capacity` slots. */
  function VectorBelowCapacity(level: BuildLevel, size: SizeT, capacity: SizeT): (s: ReturnStatus)
    ensures s.status <==> size < capacity
    ensures level != Audit ==> s.comment == []
    ensures level == Audit ==>
      s.comment == "The vector's size (" + NatToString(size) + ") must not exceed its capacity ("
                   + NatToString(capacity) + ")"
  {
    ReturnStatus(
      ContractComment(level, "", "The vector's size (" + NatToString(size) + ") must not exceed its capacity ("
                                 + NatToString(capacity) + ")"),
      size < capacity)
  }

  /** The expectations of the assertion test, with capacity 2 and sizes 0, 1 and 2. */
  lemma VectorTestCases(site: CallSite)
    ensures DefaultEnforce(Config(Default, ContinuationOn), site, VectorBelowCapacity(Default, 0, 2)) == Checked(Pass)
    ensures DefaultEnforce(Config(Default, ContinuationOn), site, VectorBelowCapacity(Default, 1, 2)) == Checked(Pass)
    ensures DefaultEnforce(Config(Default, ContinuationOn), site, VectorBelowCapacity(Default, 2, 2)).outcome.Violated?
  {
  }
}

/**
 * The floating-point value wrappers: `Real`, `NonnegativeReal`,
 * `StrictlyPositiveReal`, `NonzeroReal` and `UnitReal`. Each stores the raw
 * value, has no default value, converts back to the raw value unchanged, and
 * runs one range check through `DEFAULT_ENFORCE` when it is built. Assigning a
 * raw value builds a checked temporary first, so a rejected value never
 * replaces the stored one. With the build level OFF nothing is checked, and
 * any value is stored.
 */
module RealTypes {
  import opened Wrappers
  import opened Ieee
  import opened Status
  import opened Violation
  import opened Enforcement
  import opened RangeChecks
  import ContractTypes
  import Operators

  /** `Real<T>`: finite */
  datatype Real = Real(value: Float) {
    predicate Valid() { value.Fin? }
  }

  /** `NonnegativeReal<T>`: finite and at least zero */
  datatype NonnegativeReal = NonnegativeReal(value: Float) {
    predicate Valid() { value.Fin? && value.r >= 0.0 }
  }

  /** `StrictlyPositiveReal<T>`: finite and above zero */
  datatype StrictlyPositiveReal = StrictlyPositiveReal(value: Float) {
    predicate Valid() { value.Fin? && value.r > 0.0 }
  }

  /** `NonzeroReal<T>`: finite and not zero (either zero) */
  datatype NonzeroReal = NonzeroReal(value: Float) {
    predicate Valid() { value.Fin? && value.r != 0.0 }
  }

  /** `UnitReal<T>`: in [0, 1] */
  datatype UnitReal = UnitReal(value: Float) {
    predicate Valid() { value.Fin? && 0.0 <= value.r <= 1.0 }
  }

  /** The check `Real(T r)` enforces: r in (-inf, inf). */
  function RealCheck(show: Float -> string, r: Float): (s: ReturnStatus)
    ensures s.status <==> Real(r).Valid()
  {
    InfiniteBounds(show, r, 0.0);
    InRangeOpenOpen(show, r, NegInf, PosInf)
  }

  /** The check `NonnegativeReal(T r)` enforces: r in [0, inf). */
  function NonnegativeRealCheck(show: Float -> string, r: Float): (s: ReturnStatus)
    ensures s.status <==> NonnegativeReal(r).Valid()
  {
    InfiniteBounds(show, r, 0.0);
    InRangeClosedOpen(show, r, Fin(0.0), PosInf)
  }

  /** The check `StrictlyPositiveReal(T r)` enforces: r in (0, inf). */
  function StrictlyPositiveRealCheck(show: Float -> string, r: Float): (s: ReturnStatus)
    ensures s.status <==> StrictlyPositiveReal(r).Valid()
  {
    InfiniteBounds(show, r, 0.0);
    InRangeOpenOpen(show, r, Fin(0.0), PosInf)
  }

  /**
   * The check `NonzeroReal(T r)` enforces: r in (-inf, 0) or r in (0, inf).
   * Both range checks are built before the gate; only their `||` is gated.
   * Which `||` applies depends on whether `contract_types.hpp` or
   * `operators.hpp` was included first; the concatenating one is modelled
   * here, and `NonzeroAlgebrasAgree` shows the other gives the same status.
   */
  function NonzeroRealCheck(show: Float -> string, r: Float): (s: ReturnStatus)
    ensures s.status <==> NonzeroReal(r).Valid()
    ensures s.comment == InRangeOpenOpen(show, r, NegInf, Fin(0.0)).comment + "; OR "
                         + InRangeOpenOpen(show, r, Fin(0.0), PosInf).comment
  {
    InfiniteBounds(show, r, 0.0);
    ContractTypes.Or(InRangeOpenOpen(show, r, NegInf, Fin(0.0)), InRangeOpenOpen(show, r, Fin(0.0), PosInf))
  }

  /**
   * Both range comments of the non-zero check are non-empty, so the two
   * status algebras give the same result for it: the same status and the
   * same comment.
   */
  lemma NonzeroAlgebrasAgree(show: Float -> string, r: Float)
    ensures NonzeroRealCheck(show, r)
         == Operators.Or(InRangeOpenOpen(show, r, NegInf, Fin(0.0)), InRangeOpenOpen(show, r, Fin(0.0), PosInf))
  {
    var lo := InRangeOpenOpen(show, r, NegInf, Fin(0.0));
    var hi := InRangeOpenOpen(show, r, Fin(0.0), PosInf);
    ContractTypes.AgreesWithOperators(lo, hi);
  }

  /** The check `UnitReal(T r)` enforces: r in [0, 1]. */
  function UnitRealCheck(show: Float -> string, r: Float): (s: ReturnStatus)
    ensures s.status <==> UnitReal(r).Valid()
  {
    InRangeClosedClosed(show, r, Fin(0.0), Fin(1.0))
  }

  /** `Real(T r)` */
  function MakeReal(cfg: Config, site: CallSite, show: Float -> string, r: Float): (res: Result<Real, ContractViolation>)
    ensures res.Success? ==> res.value.value == r
    ensures res.Success? <==> cfg.level == Off || Real(r).Valid()
    ensures res.Failure? ==> res.error.comment == RealCheck(show, r).comment
  {
    Construct(cfg, site, DefaultTier, RealCheck(show, r), Real(r))
  }

  /** `NonnegativeReal(T r)` */
  function MakeNonnegativeReal(cfg: Config, site: CallSite, show: Float -> string, r: Float)
    : (res: Result<NonnegativeReal, ContractViolation>)
    ensures res.Success? ==> res.value.value == r
    ensures res.Success? <==> cfg.level == Off || NonnegativeReal(r).Valid()
    ensures res.Failure? ==> res.error.comment == NonnegativeRealCheck(show, r).comment
  {
    Construct(cfg, site, DefaultTier, NonnegativeRealCheck(show, r), NonnegativeReal(r))
  }

  /** `StrictlyPositiveReal(T r)` */
  function MakeStrictlyPositiveReal(cfg: Config, site: CallSite, show: Float -> string, r: Float)
    : (res: Result<StrictlyPositiveReal, ContractViolation>)
    ensures res.Success? ==> res.value.value == r
    ensures res.Success? <==> cfg.level == Off || StrictlyPositiveReal(r).Valid()
    ensures res.Failure? ==> res.error.comment == StrictlyPositiveRealCheck(show, r).comment
  {
    Construct(cfg, site, DefaultTier, StrictlyPositiveRealCheck(show, r), StrictlyPositiveReal(r))
  }

  /** `NonzeroReal(T r)` */
  function MakeNonzeroReal(cfg: Config, site: CallSite, show: Float -> string, r: Float)
    : (res: Result<NonzeroReal, ContractViolation>)
    ensures res.Success? ==> res.value.value == r
    ensures res.Success? <==> cfg.level == Off || NonzeroReal(r).Valid()
    ensures res.Failure? ==> res.error.comment == NonzeroRealCheck(show, r).comment
  {
    Construct(cfg, site, DefaultTier, NonzeroRealCheck(show, r), NonzeroReal(r))
  }

  /** `UnitReal(T r)` */
  function MakeUnitReal(cfg: Config, site: CallSite, show: Float -> string, r: Float)
    : (res: Result<UnitReal, ContractViolation>)
    ensures res.Success? ==> res.value.value == r
    ensures res.Success? <==> cfg.level == Off || UnitReal(r).Valid()
    ensures res.Failure? ==> res.error.comment == UnitRealCheck(show, r).comment
  {
    Construct(cfg, site, DefaultTier, UnitRealCheck(show, r), UnitReal(r))
  }

  /**
   * `x = r` on each wrapper: a valid object stays valid whenever the build
   * checks, and the new value is stored exactly when no violation is reported.
   */
  lemma AssignmentKeepsValidity(
    cfg: Config, site: CallSite, show: Float -> string, r: Float,
    a: Real, b: NonnegativeReal, c: StrictlyPositiveReal, d: NonzeroReal, e: UnitReal)
    requires cfg.level != Off
    ensures var x := Assign(a, MakeReal(cfg, site, show, r));
      (a.Valid() ==> x.value.Valid()) && (x.violation.None? <==> Real(r).Valid())
      && (x.violation.None? ==> x.value.value == r) && (x.violation.Some? ==> x.value == a)
    ensures var x := Assign(b, MakeNonnegativeReal(cfg, site, show, r));
      (b.Valid() ==> x.value.Valid()) && (x.violation.None? <==> NonnegativeReal(r).Valid())
      && (x.violation.None? ==> x.value.value == r) && (x.violation.Some? ==> x.value == b)
    ensures var x := Assign(c, MakeStrictlyPositiveReal(cfg, site, show, r));
      (c.Valid() ==> x.value.Valid()) && (x.violation.None? <==> StrictlyPositiveReal(r).Valid())
      && (x.violation.None? ==> x.value.value == r) && (x.violation.Some? ==> x.value == c)
    ensures var x := Assign(d, MakeNonzeroReal(cfg, site, show, r));
      (d.Valid() ==> x.value.Valid()) && (x.violation.None? <==> NonzeroReal(r).Valid())
      && (x.violation.None? ==> x.value.value == r) && (x.violation.Some? ==> x.value == d)
    ensures var x := Assign(e, MakeUnitReal(cfg, site, show, r));
      (e.Valid() ==> x.value.Valid()) && (x.violation.None? <==> UnitReal(r).Valid())
      && (x.violation.None? ==> x.value.value == r) && (x.violation.Some? ==> x.value == e)
  {
  }

  /** The validity conditions nest: unit and strictly positive values are nonnegative, and so on. */
  lemma ValidityHierarchy(r: Float)
    ensures StrictlyPositiveReal(r).Valid() ==> NonnegativeReal(r).Valid() && NonzeroReal(r).Valid()
    ensures UnitReal(r).Valid() ==> NonnegativeReal(r).Valid()
    ensures NonnegativeReal(r).Valid() || NonzeroReal(r).Valid() ==> Real(r).Valid()
    ensures NonzeroReal(r).Valid() <==> StrictlyPositiveReal(r).Valid() || StrictlyPositiveReal(Neg(r)).Valid()
  {
  }

  /** The build the type tests run in: DEFAULT level, violations thrown. */
  const TestConfig: Config := Config(Default, ContinuationOn)

  /** The expectations of the `Real` test. */
  lemma RealTestCases(site: CallSite, show: Float -> string)
    ensures MakeReal(TestConfig, site, show, NaN).Failure?
    ensures MakeReal(TestConfig, site, show, PosInf).Failure?
    ensures MakeReal(TestConfig, site, show, NegInf).Failure?
    ensures MakeReal(TestConfig, site, show, Fin(0.0)).Success?
    ensures Assign(Real(Fin(0.0)), MakeReal(TestConfig, site, show, NaN)).violation.Some?
    ensures Assign(Real(Fin(0.0)), MakeReal(TestConfig, site, show, Add(Fin(0.0), PosInf))).violation.Some?
    ensures Assign(Real(Fin(1.0)), MakeReal(TestConfig, site, show, Add(Fin(1.0), Fin(1.0))))
         == Assigned(Real(Fin(2.0)), None)
  {
  }

  /** The expectations of the `UnitReal` test. */
  lemma UnitRealTestCases(site: CallSite, show: Float -> string)
    ensures MakeUnitReal(TestConfig, site, show, NaN).Failure?
    ensures MakeUnitReal(TestConfig, site, show, PosInf).Failure?
    ensures MakeUnitReal(TestConfig, site, show, NegInf).Failure?
    ensures MakeUnitReal(TestConfig, site, show, Fin(-1.0)).Failure?
    ensures MakeUnitReal(TestConfig, site, show, Fin(0.0)).Success?
    ensures MakeUnitReal(TestConfig, site, show, Fin(1.0)).Success?
    ensures MakeUnitReal(TestConfig, site, show, Fin(0.13)).Success?
    ensures MakeUnitReal(TestConfig, site, show, Fin(0.99)).Success?
    ensures Assign(UnitReal(Fin(0.0)), MakeUnitReal(TestConfig, site, show, Add(Fin(0.0), NaN))).violation.Some?
    ensures Assign(UnitReal(Fin(1.0)), MakeUnitReal(TestConfig, site, show, Sub(Fin(1.0), Fin(0.5))))
         == Assigned(UnitReal(Fin(0.5)), None)
    ensures Assign(UnitReal(Fin(0.0)), MakeUnitReal(TestConfig, site, show, Add(Fin(0.0), Fin(0.3))))
         == Assigned(UnitReal(Fin(0.3)), None)
  {
  }

  /** The expectations of the `NonzeroReal` and `StrictlyPositiveReal` tests, and the lower end of `NonnegativeReal`. */
  lemma NonzeroAndPositiveTestCases(site: CallSite, show: Float -> string)
    ensures MakeNonzeroReal(TestConfig, site, show, Fin(0.0)).Failure?
    ensures MakeNonzeroReal(TestConfig, site, show, NaN).Failure?
    ensures MakeNonzeroReal(TestConfig, site, show, NegInf).Failure?
    ensures MakeNonzeroReal(TestConfig, site, show, Fin(1.0)).Success?
    ensures MakeNonzeroReal(TestConfig, site, show, Fin(-1.0)).Success?
    ensures Assign(NonzeroReal(Fin(-1.0)), MakeNonzeroReal(TestConfig, site, show, Add(Fin(-1.0), Fin(2.0))))
         == Assigned(NonzeroReal(Fin(1.0)), None)
    ensures MakeStrictlyPositiveReal(TestConfig, site, show, Fin(0.0)).Failure?
    ensures MakeStrictlyPositiveReal(TestConfig, site, show, Fin(-1.0)).Failure?
    ensures MakeStrictlyPositiveReal(TestConfig, site, show, Fin(0.00005)).Success?
    ensures Assign(StrictlyPositiveReal(Fin(0.00005)),
                   MakeStrictlyPositiveReal(TestConfig, site, show, Add(Fin(0.00005), PosInf))).violation.Some?
    ensures MakeNonnegativeReal(TestConfig, site, show, Fin(0.0)).Success?
    ensures MakeNonnegativeReal(TestConfig, site, show, Fin(-1.0)).Failure?
  {
  }

  /** With the build level OFF every value is stored, valid or not. */
  lemma OffStoresAnything(site: CallSite, show: Float -> string, r: Float, mode: ContinuationMode)
    ensures MakeReal(Config(Off, mode), site, show, r) == Success(Real(r))
    ensures MakeNonnegativeReal(Config(Off, mode), site, show, r) == Success(NonnegativeReal(r))
    ensures MakeStrictlyPositiveReal(Config(Off, mode), site, show, r) == Success(StrictlyPositiveReal(r))
    ensures MakeNonzeroReal(Config(Off, mode), site, show, r) == Success(NonzeroReal(r))
    ensures MakeUnitReal(Config(Off, mode), site, show, r) == Success(UnitReal(r))
  {
  }
}

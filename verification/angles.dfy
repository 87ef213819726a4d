/**
 * `AcuteDegree` (valid in [0, 90)) and `AcuteRadian` (valid in [0, pi/2)),
 * each converting to the other by scaling with 180/pi or pi/180 and then
 * re-running its own range check. Arithmetic is exact: `M_PI` is an abstract
 * constant known only to lie between 3.14159 and 3.14160, and the float
 * rounding of the conversion ratios is not modelled.
 */
module Angles {
  import opened Wrappers
  import opened Ieee
  import opened Status
  import opened Violation
  import opened Enforcement
  import opened RangeChecks

  /** The values `M_PI` may stand for. */
  type PiValue = x: real | 3.14159 < x < 3.14160 witness 3.141595

  /** `M_PI` */
  const PI: PiValue

  /** `AcuteDegree<T>` */
  datatype AcuteDegree = AcuteDegree(value: Float) {
    predicate Valid() { value.Fin? && 0.0 <= value.r < 90.0 }
  }

  /** `AcuteRadian<T>` */
  datatype AcuteRadian = AcuteRadian(value: Float) {
    predicate Valid() { value.Fin? && 0.0 <= value.r < PI * 0.5 }
  }

  /** `AcuteDegree::radian_to_degree`: `r * (180 / pi)` */
  function RadianToDegree(r: Float): (d: Float)
    ensures d.Fin? <==> r.Fin?
    ensures r.Fin? ==> d.r * PI == r.r * 180.0
  {
    Scale(r, 180.0 / PI)
  }

  /** `AcuteRadian::degree_to_radian`: `d * (pi / 180)` */
  function DegreeToRadian(d: Float): (r: Float)
    ensures r.Fin? <==> d.Fin?
    ensures d.Fin? ==> r.r * 180.0 == d.r * PI
  {
    Scale(d, PI / 180.0)
  }

  /** With exact arithmetic the two conversions undo each other. */
  lemma ConversionsRoundTrip(x: Float)
    ensures RadianToDegree(DegreeToRadian(x)) == x
    ensures DegreeToRadian(RadianToDegree(x)) == x
  {
    assert 1.0 / (PI / 180.0) == 180.0 / PI;
    assert 1.0 / (180.0 / PI) == PI / 180.0;
    ScaleInverse(x, PI / 180.0);
    ScaleInverse(x, 180.0 / PI);
  }

  /** Multiplying both sides by a positive factor keeps a strict or weak order. */
  lemma ScaleOrder(a: real, b: real, k: real)
    requires k > 0.0
    ensures a < b <==> a * k < b * k
    ensures a <= b <==> a * k <= b * k
  {
  }

  /** Degrees converted to radians are acute exactly when the degrees were. */
  lemma DegreeToRadianKeepsValidity(x: Float)
    ensures AcuteRadian(DegreeToRadian(x)).Valid() <==> AcuteDegree(x).Valid()
  {
    if x.Fin? {
      var r := DegreeToRadian(x).r;
      assert r * 180.0 == x.r * PI;
      ScaleOrder(0.0, r, 180.0);
      ScaleOrder(0.0, x.r, PI);
      assert 0.0 <= r <==> 0.0 <= x.r;
      ScaleOrder(r, PI * 0.5, 180.0);
      assert PI * 0.5 * 180.0 == 90.0 * PI;
      ScaleOrder(x.r, 90.0, PI);
      assert r < PI * 0.5 <==> x.r < 90.0;
    }
  }

  /** Radians converted to degrees are acute exactly when the radians were. */
  lemma RadianToDegreeKeepsValidity(x: Float)
    ensures AcuteDegree(RadianToDegree(x)).Valid() <==> AcuteRadian(x).Valid()
  {
    if x.Fin? {
      var d := RadianToDegree(x).r;
      assert d * PI == x.r * 180.0;
      ScaleOrder(0.0, d, PI);
      ScaleOrder(0.0, x.r, 180.0);
      assert 0.0 <= d <==> 0.0 <= x.r;
      ScaleOrder(d, 90.0, PI);
      assert 90.0 * PI == PI * 0.5 * 180.0;
      ScaleOrder(x.r, PI * 0.5, 180.0);
      assert d < 90.0 <==> x.r < PI * 0.5;
    }
  }

  /** A conversion keeps an angle acute, and keeps a non-acute one non-acute. */
  lemma ConversionsKeepValidity(x: Float)
    ensures AcuteRadian(DegreeToRadian(x)).Valid() <==> AcuteDegree(x).Valid()
    ensures AcuteDegree(RadianToDegree(x)).Valid() <==> AcuteRadian(x).Valid()
  {
    DegreeToRadianKeepsValidity(x);
    RadianToDegreeKeepsValidity(x);
  }

  /** The check `AcuteDegree(T r)` enforces: r in [0, 90). */
  function DegreeCheck(show: Float -> string, r: Float): (s: ReturnStatus)
    ensures s.status <==> AcuteDegree(r).Valid()
  {
    InRangeClosedOpen(show, r, Fin(0.0), Fin(90.0))
  }

  /** The check `AcuteRadian(T r)` enforces: r in [0, pi * 0.5). */
  function RadianCheck(show: Float -> string, r: Float): (s: ReturnStatus)
    ensures s.status <==> AcuteRadian(r).Valid()
  {
    InRangeClosedOpen(show, r, Fin(0.0), Fin(PI * 0.5))
  }

  /** `AcuteDegree(T r)`, also used by `operator=(T)` through a temporary. */
  function MakeAcuteDegree(cfg: Config, site: CallSite, show: Float -> string, r: Float)
    : (res: Result<AcuteDegree, ContractViolation>)
    ensures res.Success? ==> res.value.value == r
    ensures res.Success? <==> cfg.level == Off || AcuteDegree(r).Valid()
    ensures res.Failure? ==> res.error.comment == DegreeCheck(show, r).comment
  {
    Construct(cfg, site, DefaultTier, DegreeCheck(show, r), AcuteDegree(r))
  }

  /** `AcuteRadian(T r)`, also used by `operator=(T)` through a temporary. */
  function MakeAcuteRadian(cfg: Config, site: CallSite, show: Float -> string, r: Float)
    : (res: Result<AcuteRadian, ContractViolation>)
    ensures res.Success? ==> res.value.value == r
    ensures res.Success? <==> cfg.level == Off || AcuteRadian(r).Valid()
    ensures res.Failure? ==> res.error.comment == RadianCheck(show, r).comment
  {
    Construct(cfg, site, DefaultTier, RadianCheck(show, r), AcuteRadian(r))
  }

  /**
   * `AcuteDegree(AcuteRadian r)`: converts, then checks again. A radian
   * object that passed its own check always converts successfully.
   */
  function DegreeFromRadian(cfg: Config, site: CallSite, show: Float -> string, a: AcuteRadian)
    : (res: Result<AcuteDegree, ContractViolation>)
    ensures res.Success? <==> cfg.level == Off || a.Valid()
    ensures res.Success? ==> DegreeToRadian(res.value.value) == a.value
  {
    ConversionsKeepValidity(a.value);
    ConversionsRoundTrip(a.value);
    MakeAcuteDegree(cfg, site, show, RadianToDegree(a.value))
  }

  /**
   * `AcuteRadian(AcuteDegree d)`: converts, then checks again. A degree
   * object that passed its own check always converts successfully.
   */
  function RadianFromDegree(cfg: Config, site: CallSite, show: Float -> string, a: AcuteDegree)
    : (res: Result<AcuteRadian, ContractViolation>)
    ensures res.Success? <==> cfg.level == Off || a.Valid()
    ensures res.Success? ==> RadianToDegree(res.value.value) == a.value
  {
    ConversionsKeepValidity(a.value);
    ConversionsRoundTrip(a.value);
    MakeAcuteRadian(cfg, site, show, DegreeToRadian(a.value))
  }

  /** `operator=(AcuteRadian)` on a degree object, through a checked temporary. */
  function AssignDegreeFromRadian(
    cfg: Config, site: CallSite, show: Float -> string, current: AcuteDegree, a: AcuteRadian)
    : (x: Assigned<AcuteDegree>)
    ensures cfg.level != Off && current.Valid() ==> x.value.Valid()
    ensures x.violation.None? ==> DegreeToRadian(x.value.value) == a.value
    ensures x.violation.Some? ==> x.value == current
  {
    Assign(current, DegreeFromRadian(cfg, site, show, a))
  }

  /** `operator=(AcuteDegree)` on a radian object, through a checked temporary. */
  function AssignRadianFromDegree(
    cfg: Config, site: CallSite, show: Float -> string, current: AcuteRadian, a: AcuteDegree)
    : (x: Assigned<AcuteRadian>)
    ensures cfg.level != Off && current.Valid() ==> x.value.Valid()
    ensures x.violation.None? ==> RadianToDegree(x.value.value) == a.value
    ensures x.violation.Some? ==> x.value == current
  {
    Assign(current, RadianFromDegree(cfg, site, show, a))
  }

  /** The expectations of the degree test, in a build that checks and throws. */
  lemma DegreeTestCases(site: CallSite, show: Float -> string)
    ensures MakeAcuteDegree(Config(Default, ContinuationOn), site, show, NaN).Failure?
    ensures MakeAcuteDegree(Config(Default, ContinuationOn), site, show, PosInf).Failure?
    ensures MakeAcuteDegree(Config(Default, ContinuationOn), site, show, NegInf).Failure?
    ensures Assign(AcuteDegree(Fin(45.0)), MakeAcuteDegree(Config(Default, ContinuationOn), site, show, Fin(95.0)))
         == Assigned(AcuteDegree(Fin(45.0)), Some(MakeAcuteDegree(Config(Default, ContinuationOn), site, show, Fin(95.0)).error))
    ensures Assign(AcuteDegree(Fin(45.0)), MakeAcuteDegree(Config(Default, ContinuationOn), site, show, Fin(15.0)))
         == Assigned(AcuteDegree(Fin(15.0)), None)
  {
  }

  /** The expectations of the radian test, in a build that checks and throws. */
  lemma RadianTestCases(site: CallSite, show: Float -> string)
    ensures MakeAcuteRadian(Config(Default, ContinuationOn), site, show, NaN).Failure?
    ensures MakeAcuteRadian(Config(Default, ContinuationOn), site, show, PosInf).Failure?
    ensures MakeAcuteRadian(Config(Default, ContinuationOn), site, show, NegInf).Failure?
    ensures MakeAcuteRadian(Config(Default, ContinuationOn), site, show, Fin(1.0)).Success?
    ensures Assign(AcuteRadian(Fin(1.0)), MakeAcuteRadian(Config(Default, ContinuationOn), site, show, Fin(2.0)))
         .violation.Some?
    ensures Assign(AcuteRadian(Fin(1.0)), MakeAcuteRadian(Config(Default, ContinuationOn), site, show, Fin(0.75)))
         == Assigned(AcuteRadian(Fin(0.75)), None)
  {
  }

  /** 45 degrees converts to exactly a quarter turn of pi/4, and back. */
  lemma QuarterTurn(cfg: Config, site: CallSite, show: Float -> string)
    ensures RadianFromDegree(cfg, site, show, AcuteDegree(Fin(45.0))) == Success(AcuteRadian(Fin(PI / 4.0)))
    ensures DegreeFromRadian(cfg, site, show, AcuteRadian(Fin(PI / 4.0))) == Success(AcuteDegree(Fin(45.0)))
  {
    assert AcuteDegree(Fin(45.0)).Valid();
    assert DegreeToRadian(Fin(45.0)) == Fin(PI / 4.0);
    assert RadianToDegree(Fin(PI / 4.0)) == Fin(45.0);
  }
}

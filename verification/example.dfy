/**
 * The demonstration function `foo` and its contract: a precondition on an
 * input set, two assertions (one at each tier), and a postcondition on an
 * output set, with two inputs deliberately turned into NaN along the way so
 * that every check has an input that fails it.
 */
module Example {
  import opened Wrappers
  import opened Ieee
  import opened Status
  import opened Text
  import opened Violation
  import opened Enforcement

  /** The values the precondition of `foo` admits. */
  const InputSet: seq<real> := [-5.0, 0.0, 0.5, 1.0, 2.3, 5.0]

  /** The values the postcondition of `foo` admits. */
  const OutputSet: seq<real> := [0.0, 1.0, 5.0]

  /** `std::any_of(S, [&](s) { return s == x; })` under IEEE equality. */
  function AnyEqual(s: seq<real>, x: Float): (b: bool)
    ensures b <==> x.Fin? && x.r in s
  {
    if s == [] then false else Eq(Fin(s[0]), x) || AnyEqual(s[1..], x)
  }

  /** `contract::preconditions::in_input_set(bar)` */
  function InInputSet(show: Float -> string, bar: Float): (s: ReturnStatus)
    ensures s.status <==> bar.Fin? && bar.r in {-5.0, 0.0, 0.5, 1.0, 2.3, 5.0}
    ensures s.comment == "The value " + FixedToString(show, bar) + " must be a member of the input set"
  {
    ReturnStatus("The value " + FixedToString(show, bar) + " must be a member of the input set",
                 AnyEqual(InputSet, bar))
  }

  /** `contract::postconditions::foo(bar)` */
  function InOutputSet(show: Float -> string, bar: Float): (s: ReturnStatus)
    ensures s.status <==> bar.Fin? && bar.r in {0.0, 1.0, 5.0}
    ensures s.comment == "The value " + FixedToString(show, bar) + " must be a member of the output set"
  {
    ReturnStatus("The value " + FixedToString(show, bar) + " must be a member of the output set",
                 AnyEqual(OutputSet, bar))
  }

  /** The four checks in `foo`, in the order they run. */
  datatype CheckPoint = Precondition | NotNaN | NonZero | Postcondition

  /**
   * `foo(bar)`. Each check may stop the call with the violation it reports;
   * `at` gives the source location of each check. An input of 1 becomes NaN
   * before the NaN assertion, and an input of -5 becomes NaN before the
   * postcondition.
   */
  function Foo(cfg: Config, show: Float -> string, at: CheckPoint -> CallSite, bar: Float)
    : (r: Result<Float, ContractViolation>)
    ensures cfg.level != Off && r.Success? ==> r.value == bar
    ensures r.Failure? ==> cfg.level != Off
  {
    var pre := DefaultEnforce(cfg, at(Precondition), InInputSet(show, bar));
    if !Continues(pre) then Failure(pre.outcome.violation)
    else
      var bar1 := if Eq(bar, Fin(1.0)) then NaN else bar;
      var notNaN := DefaultEnforce(cfg, at(NotNaN), ReturnStatus("'bar' must not be NaN here", !bar1.NaN?));
      if !Continues(notNaN) then Failure(notNaN.outcome.violation)
      else
        var nonZero := AuditEnforce(cfg, at(NonZero), ReturnStatus("'bar' must not be zero here", !Eq(bar1, Fin(0.0))));
        if !Continues(nonZero) then Failure(nonZero.outcome.violation)
        else
          var bar2 := if Eq(bar1, Fin(-5.0)) then NaN else bar1;
          var post := DefaultEnforce(cfg, at(Postcondition), InOutputSet(show, bar2));
          if !Continues(post) then Failure(post.outcome.violation)
          else Success(bar2)
  }

  /**
   * The first check `foo(bar)` fails at a build level that enforces both
   * tiers or only the default one, read off the contract rather than the code:
   * inputs outside the input set fail the precondition, 1 the NaN assertion,
   * 0 the zero assertion when it is compiled in, and every other input outside
   * the output set (with -5 as NaN) the postcondition.
   */
  function FirstFailure(level: BuildLevel, bar: Float): (c: Option<CheckPoint>)
    requires level != Off
  {
    if !(bar.Fin? && bar.r in {-5.0, 0.0, 0.5, 1.0, 2.3, 5.0}) then Some(Precondition)
    else if bar.r == 1.0 then Some(NotNaN)
    else if level == Audit && bar.r == 0.0 then Some(NonZero)
    else if bar.r !in {0.0, 5.0} then Some(Postcondition)
    else None
  }

  /**
   * At a checking level `foo` fails exactly when the contract says some check
   * fails, and the violation it reports comes from that check's location and
   * carries the build level.
   */
  lemma FooFailsAtFirstFailure(cfg: Config, show: Float -> string, at: CheckPoint -> CallSite, bar: Float)
    requires cfg.level != Off
    ensures Foo(cfg, show, at, bar).Failure? <==> FirstFailure(cfg.level, bar).Some?
    ensures Foo(cfg, show, at, bar).Failure? ==>
      var v := Foo(cfg, show, at, bar).error;
      var site := at(FirstFailure(cfg.level, bar).value);
      v.fileName == site.fileName && v.functionName == site.functionName
      && ParseLevelName(v.assertionLevel) == Some(cfg.level)
  {
  }

  /** With every check compiled in, only 5 gets through. */
  lemma FooAtAudit(mode: ContinuationMode, show: Float -> string, at: CheckPoint -> CallSite, bar: Float)
    ensures Foo(Config(Audit, mode), show, at, bar).Success? <==> bar == Fin(5.0)
  {
    FooFailsAtFirstFailure(Config(Audit, mode), show, at, bar);
  }

  /** Without the zero assertion, 0 gets through as well as 5. */
  lemma FooAtDefault(mode: ContinuationMode, show: Float -> string, at: CheckPoint -> CallSite, bar: Float)
    ensures Foo(Config(Default, mode), show, at, bar).Success? <==> bar == Fin(0.0) || bar == Fin(5.0)
  {
    FooFailsAtFirstFailure(Config(Default, mode), show, at, bar);
  }

  /**
   * With contracts off nothing is checked: every input gets through, 1 and -5
   * come back as NaN, and everything else comes back unchanged.
   */
  lemma FooAtOff(mode: ContinuationMode, show: Float -> string, at: CheckPoint -> CallSite, bar: Float)
    ensures Foo(Config(Off, mode), show, at, bar).Success?
    ensures Foo(Config(Off, mode), show, at, bar).value
         == if bar == Fin(1.0) || bar == Fin(-5.0) then NaN else bar
  {
  }

  /** The expectations of the example test at AUDIT: 5 passes, and 10, 2.3, -5, 0 and 0.5 are each stopped. */
  lemma FooAuditTestCases(mode: ContinuationMode, show: Float -> string, at: CheckPoint -> CallSite)
    ensures Foo(Config(Audit, mode), show, at, Fin(5.0)).Success?
    ensures Foo(Config(Audit, mode), show, at, Fin(10.0)).Failure?
    ensures Foo(Config(Audit, mode), show, at, Fin(2.3)).Failure?
    ensures Foo(Config(Audit, mode), show, at, Fin(-5.0)).Failure?
    ensures Foo(Config(Audit, mode), show, at, Fin(0.0)).Failure?
    ensures Foo(Config(Audit, mode), show, at, Fin(0.5)).Failure?
  {
    FooAtAudit(mode, show, at, Fin(5.0));
    FooAtAudit(mode, show, at, Fin(10.0));
    FooAtAudit(mode, show, at, Fin(2.3));
    FooAtAudit(mode, show, at, Fin(-5.0));
    FooAtAudit(mode, show, at, Fin(0.0));
    FooAtAudit(mode, show, at, Fin(0.5));
  }

  /** The expectations of the example test at DEFAULT: 5 and 0 pass, and 10, 2.3, -5 and 0.5 are each stopped. */
  lemma FooDefaultTestCases(mode: ContinuationMode, show: Float -> string, at: CheckPoint -> CallSite)
    ensures Foo(Config(Default, mode), show, at, Fin(5.0)).Success?
    ensures Foo(Config(Default, mode), show, at, Fin(10.0)).Failure?
    ensures Foo(Config(Default, mode), show, at, Fin(2.3)).Failure?
    ensures Foo(Config(Default, mode), show, at, Fin(-5.0)).Failure?
    ensures Foo(Config(Default, mode), show, at, Fin(0.0)).Success?
    ensures Foo(Config(Default, mode), show, at, Fin(0.5)).Failure?
  {
    FooAtDefault(mode, show, at, Fin(5.0));
    FooAtDefault(mode, show, at, Fin(10.0));
    FooAtDefault(mode, show, at, Fin(2.3));
    FooAtDefault(mode, show, at, Fin(-5.0));
    FooAtDefault(mode, show, at, Fin(0.0));
    FooAtDefault(mode, show, at, Fin(0.5));
  }
}

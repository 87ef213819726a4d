/**
 * The build-level gate of `enforcement.hpp`. A build is configured by two
 * preprocessor flags, which fix one of three levels; each check is written at
 * one of two tiers (`DEFAULT_ENFORCE` or `AUDIT_ENFORCE`), and the level
 * decides whether the check's argument is evaluated at all. An evaluated check
 * whose status is false builds a `ContractViolation` and hands it to the
 * violation handler, which never returns normally.
 *
 * Source locations (`__FILE__`, `__LINE__`, `__func__`) are passed in as a
 * `CallSite`; the handler's printing, throwing and terminating are reduced to
 * the outcome value it produces.
 */
module Enforcement {
  import opened Wrappers
  import opened Status
  import opened Text
  import opened Violation

  /** `CONTRACT_BUILD_LEVEL_OFF`, the default, `CONTRACT_BUILD_LEVEL_AUDIT` */
  datatype BuildLevel = Off | Default | Audit

  /** Which macro a check is written with. */
  datatype Tier = DefaultTier | AuditTier

  /** Whether `CONTRACT_VIOLATION_CONTINUATION_MODE_ON` is defined. */
  datatype ContinuationMode = ContinuationOn | ContinuationOff

  /** The two settings a build fixes. */
  datatype Config = Config(level: BuildLevel, mode: ContinuationMode)

  /** Where a check is written: `__FILE__`, `__LINE__` and `__func__`. */
  datatype CallSite = CallSite(fileName: string, line: nat, functionName: string)

  /**
   * The level selected by the two flags; the OFF flag is tested first, so it
   * wins over the AUDIT flag.
   */
  function LevelFromFlags(offFlag: bool, auditFlag: bool): (level: BuildLevel)
    ensures level == Off <==> offFlag
    ensures level == Audit <==> !offFlag && auditFlag
    ensures level == Default <==> !offFlag && !auditFlag
  {
    if offFlag then Off else if auditFlag then Audit else Default
  }

  /** `CONTRACT_BUILD_LEVEL` */
  function LevelName(level: BuildLevel): (s: string)
    ensures ParseLevelName(s) == Some(level)
  {
    match level
    case Off => "OFF"
    case Audit => "AUDIT"
    case Default => "DEFAULT"
  }

  /** `CONTRACT_VIOLATION_CONTINUATION_MODE` */
  function ModeName(mode: ContinuationMode): (s: string)
    ensures ParseModeName(s) == Some(mode)
  {
    match mode
    case ContinuationOn => "ON"
    case ContinuationOff => "OFF"
  }

  /** Reads a level back from the string a violation record carries. */
  function ParseLevelName(s: string): (r: Option<BuildLevel>)
    ensures r.Some? <==> s in {"OFF", "AUDIT", "DEFAULT"}
  {
    if s == "OFF" then Some(Off)
    else if s == "AUDIT" then Some(Audit)
    else if s == "DEFAULT" then Some(Default)
    else None
  }

  /** Reads a continuation mode back from the string a violation record carries. */
  function ParseModeName(s: string): (r: Option<ContinuationMode>)
    ensures r.Some? <==> s in {"ON", "OFF"}
  {
    if s == "ON" then Some(ContinuationOn)
    else if s == "OFF" then Some(ContinuationOff)
    else None
  }

  /**
   * The level and mode strings name the configuration unambiguously: each
   * parses back to what it was made from.
   */
  lemma NamesRoundTrip(level: BuildLevel, mode: ContinuationMode)
    ensures ParseLevelName(LevelName(level)) == Some(level)
    ensures ParseModeName(ModeName(mode)) == Some(mode)
  {
  }

  /** `CONTRACT_COMMENT(default_comment, audit_comment)` */
  function ContractComment(level: BuildLevel, defaultComment: string, auditComment: string): (c: string)
    ensures level == Off ==> c == []
    ensures level == Audit ==> c == auditComment
    ensures level == Default ==> c == defaultComment
  {
    match level
    case Off => ""
    case Audit => auditComment
    case Default => defaultComment
  }

  /** Whether a check of `tier` is evaluated in a build at `level`. */
  predicate Enforced(level: BuildLevel, tier: Tier)
    ensures Enforced(level, tier) <==> Rank(level) >= (if tier == DefaultTier then 1 else 2)
  {
    match level
    case Off => false
    case Default => tier == DefaultTier
    case Audit => true
  }

  /** OFF below DEFAULT below AUDIT. */
  function Rank(level: BuildLevel): nat {
    match level
    case Off => 0
    case Default => 1
    case Audit => 2
  }

  /**
   * OFF enforces nothing, DEFAULT exactly the default tier, AUDIT both; so the
   * enforced checks only grow as the level rises, and the audit comment is
   * chosen exactly when audit checks run.
   */
  lemma GateIsMonotone(a: BuildLevel, b: BuildLevel, tier: Tier, d: string, u: string)
    ensures !Enforced(Off, tier)
    ensures Enforced(Default, tier) <==> tier == DefaultTier
    ensures Enforced(Audit, tier)
    ensures Enforced(a, tier) && Rank(a) <= Rank(b) ==> Enforced(b, tier)
    ensures a != Off && d != u ==> (ContractComment(a, d, u) == u <==> Enforced(a, AuditTier))
  {
  }

  /**
   * `CONTRACT_VIOLATION(comment)`: the record carries the build level (not the
   * tier of the failed check) and the continuation mode as strings, and the
   * line number cast to `uint_least32_t`.
   */
  function MakeViolation(cfg: Config, site: CallSite, comment: string): (v: ContractViolation)
    ensures v.comment == comment
    ensures v.fileName == site.fileName && v.functionName == site.functionName
    ensures site.line < 0x1_0000_0000 ==> v.lineNumber == site.line
    ensures ParseLevelName(v.assertionLevel) == Some(cfg.level)
    ensures ParseModeName(v.continuationMode) == Some(cfg.mode)
  {
    ContractViolation(
      site.line % 0x1_0000_0000, comment, LevelName(cfg.level), ModeName(cfg.mode),
      site.fileName, site.functionName)
  }

  /** What evaluating a check leads to. */
  datatype Outcome = Pass | Violated(violation: ContractViolation)

  /** `ENFORCE_CONTRACT(check)` */
  function EnforceContract(cfg: Config, site: CallSite, check: ReturnStatus): (o: Outcome)
    ensures o.Violated? <==> !check.status
    ensures o.Violated? ==> o.violation.comment == check.comment
    ensures o.Violated? ==> ParseLevelName(o.violation.assertionLevel) == Some(cfg.level)
  {
    if !check.status then Violated(MakeViolation(cfg, site, check.comment)) else Pass
  }

  /** A gated check is either compiled out, or evaluated with some outcome. */
  datatype Gated = Skipped | Checked(outcome: Outcome)

  /** `DEFAULT_ENFORCE(check)` or `AUDIT_ENFORCE(check)`, by `tier`. */
  function Enforce(cfg: Config, site: CallSite, tier: Tier, check: ReturnStatus): (g: Gated)
    ensures g.Skipped? <==> !Enforced(cfg.level, tier)
    ensures g.Checked? ==> (g.outcome.Violated? <==> !check.status)
  {
    if Enforced(cfg.level, tier) then Checked(EnforceContract(cfg, site, check)) else Skipped
  }

  /** `DEFAULT_ENFORCE(check)` */
  function DefaultEnforce(cfg: Config, site: CallSite, check: ReturnStatus): (g: Gated)
    ensures g.Skipped? <==> cfg.level == Off
  {
    Enforce(cfg, site, DefaultTier, check)
  }

  /** `AUDIT_ENFORCE(check)` */
  function AuditEnforce(cfg: Config, site: CallSite, check: ReturnStatus): (g: Gated)
    ensures g.Skipped? <==> cfg.level != Audit
  {
    Enforce(cfg, site, AuditTier, check)
  }

  /** True when a gated check lets execution continue past it. */
  predicate Continues(g: Gated) {
    g.Skipped? || g.outcome.Pass?
  }

  /**
   * A skipped check does not look at its argument; an evaluated one reports the
   * same pass or fail at every level that enforces it, so raising the level can
   * only turn a continuing check into a reported one, never the reverse.
   */
  lemma GatedChecksAgreeAcrossLevels(
    a: Config, b: Config, site: CallSite, tier: Tier, check: ReturnStatus, other: ReturnStatus)
    ensures !Enforced(a.level, tier) ==> Enforce(a, site, tier, check) == Enforce(a, site, tier, other)
    ensures Rank(a.level) <= Rank(b.level) && !Continues(Enforce(a, site, tier, check))
      ==> !Continues(Enforce(b, site, tier, check))
    ensures Enforced(a.level, tier) && Enforced(b.level, tier)
      ==> (Continues(Enforce(a, site, tier, check)) <==> Continues(Enforce(b, site, tier, check)))
  {
    GateIsMonotone(a.level, b.level, tier, "", "");
  }

  /** What both handlers put in front of the rendered violation. */
  const HandlerPrefix: string := "CONTRACT VIOLATION: "

  /**
   * How the violation handler leaves: by throwing a `std::runtime_error`
   * carrying `message`, or by writing `written` to the error stream and
   * terminating the process.
   */
  datatype Handled = Thrown(message: string) | Terminated(written: string)

  /** Reads a violation back from a handler's message. */
  function ReadHandlerMessage(m: string): Option<ContractViolation> {
    var rest :- Expect(HandlerPrefix, m);
    Parse(rest)
  }

  /** A quoteless violation is recovered from the prefixed rendering. */
  lemma MessageReadsBack(v: ContractViolation)
    ensures Quoteless(v) ==> ReadHandlerMessage(HandlerPrefix + Render(v)) == Some(v)
  {
    ExpectPrefix(HandlerPrefix, Render(v));
    if Quoteless(v) {
      RenderRoundTrip(v);
    }
  }

  /**
   * `CONTRACT_VIOLATION_HANDLER(violation)`: never returns normally. The
   * continuation mode picks the handler; either one reports the whole record,
   * which can be read back from what it reports.
   */
  function Handle(mode: ContinuationMode, v: ContractViolation): (h: Handled)
    ensures h.Thrown? <==> mode == ContinuationOn
    ensures h.Thrown? && Quoteless(v) ==> ReadHandlerMessage(h.message) == Some(v)
    ensures h.Terminated? ==> |h.written| > 0 && h.written[|h.written| - 1] == '\n'
    ensures h.Terminated? && Quoteless(v) ==> ReadHandlerMessage(h.written[..|h.written| - 1]) == Some(v)
  {
    MessageReadsBack(v);
    match mode
    case ContinuationOn => Thrown(HandlerPrefix + Render(v))
    case ContinuationOff =>
      assert (HandlerPrefix + Render(v) + "\n")[..|HandlerPrefix + Render(v)|] == HandlerPrefix + Render(v);
      Terminated(HandlerPrefix + Render(v) + "\n")
  }

  /**
   * A validated wrapper's checking constructor: the value is kept when the
   * gated check continues, and otherwise the violation is reported and no
   * object exists.
   */
  function Construct<T>(cfg: Config, site: CallSite, tier: Tier, check: ReturnStatus, value: T)
    : (r: Result<T, ContractViolation>)
    ensures r.Success? <==> Continues(Enforce(cfg, site, tier, check))
    ensures r.Success? ==> r.value == value
    ensures r.Failure? ==> !check.status && r.error.comment == check.comment
  {
    match Enforce(cfg, site, tier, check)
    case Skipped => Success(value)
    case Checked(Pass) => Success(value)
    case Checked(Violated(v)) => Failure(v)
  }

  /** The stored value after an assignment, and the violation it reported if any. */
  datatype Assigned<T> = Assigned(value: T, violation: Option<ContractViolation>)

  /**
   * Assignment builds a checked temporary and then copies it in; when the
   * temporary's check fails the handler leaves before the copy, so the stored
   * value is unchanged.
   */
  function Assign<T>(current: T, made: Result<T, ContractViolation>): (a: Assigned<T>)
    ensures made.Success? ==> a == Assigned(made.value, None)
    ensures made.Failure? ==> a == Assigned(current, Some(made.error))
  {
    match made
    case Success(v) => Assigned(v, None)
    case Failure(e) => Assigned(current, Some(e))
  }
}

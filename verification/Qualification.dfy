/** qualification_gate.py: which autonomy modes the evidence supports. */
module Qualification {
  import opened Prelude

  datatype Mode = Shadow | AutoWithAudit | Auto

  datatype Domain = Reasoning | Execution | Observation | Science | StateDomain | ProvenanceDomain | Liveness | Architecture

  datatype Check = Check(checkId: string, domain: Domain, passed: bool, mandatory: bool)

  datatype Metrics = Metrics(
    cycles: nat, unsafeActionProposals: nat, decisionDrifts: nat, falseBlocked: nat, unnecessaryEscalations: nat,
    providerFailures: nat)

  datatype Thresholds = Thresholds(
    minimumCycles: nat, maxUnsafeActionProposals: nat, maxDecisionDrifts: nat, maxFalseBlockedRate: real,
    maxUnnecessaryEscalationRate: real, maxProviderFailureRate: real)

  datatype Policy = Policy(requiredDomains: seq<Domain>, autoWithAudit: Thresholds, auto: Thresholds)

  predicate InUnit(rate: real) {
    0.0 <= rate <= 1.0
  }

  predicate ThresholdsAccepted(t: Thresholds) {
    InUnit(t.maxFalseBlockedRate) && InUnit(t.maxUnnecessaryEscalationRate) && InUnit(t.maxProviderFailureRate)
  }

  /** `QualificationPolicy.from_dict`: AUTO is nowhere weaker than AUTO_WITH_AUDIT. */
  predicate PolicyAccepted(p: Policy) {
    && p.requiredDomains != []
    && (forall i, j :: 0 <= i < j < |p.requiredDomains| ==> p.requiredDomains[i] != p.requiredDomains[j])
    && ThresholdsAccepted(p.autoWithAudit) && ThresholdsAccepted(p.auto)
    && p.auto.minimumCycles >= p.autoWithAudit.minimumCycles
    && p.auto.maxUnsafeActionProposals <= p.autoWithAudit.maxUnsafeActionProposals
    && p.auto.maxDecisionDrifts <= p.autoWithAudit.maxDecisionDrifts
    && p.auto.maxFalseBlockedRate <= p.autoWithAudit.maxFalseBlockedRate
    && p.auto.maxUnnecessaryEscalationRate <= p.autoWithAudit.maxUnnecessaryEscalationRate
    && p.auto.maxProviderFailureRate <= p.autoWithAudit.maxProviderFailureRate
  }

  /** `QualificationMetrics.from_dict` */
  predicate MetricsAccepted(m: Metrics) {
    m.unsafeActionProposals <= m.cycles && m.decisionDrifts <= m.cycles && m.falseBlocked <= m.cycles
    && m.unnecessaryEscalations <= m.cycles && m.providerFailures <= m.cycles
  }

  function Rate(count: nat, cycles: nat): real {
    if cycles == 0 then 0.0 else count as real / cycles as real
  }

  /** Every threshold is met. */
  predicate Meets(m: Metrics, t: Thresholds) {
    && m.cycles >= t.minimumCycles
    && m.unsafeActionProposals <= t.maxUnsafeActionProposals
    && m.decisionDrifts <= t.maxDecisionDrifts
    && Rate(m.falseBlocked, m.cycles) <= t.maxFalseBlockedRate
    && Rate(m.unnecessaryEscalations, m.cycles) <= t.maxUnnecessaryEscalationRate
    && Rate(m.providerFailures, m.cycles) <= t.maxProviderFailureRate
  }

  datatype Shortfall = TooFewCycles | TooManyUnsafe | TooManyDrifts | FalseBlockedRate | EscalationRate | ProviderFailureRate

  predicate FallsShort(m: Metrics, t: Thresholds, s: Shortfall) {
    match s
    case TooFewCycles => m.cycles < t.minimumCycles
    case TooManyUnsafe => m.unsafeActionProposals > t.maxUnsafeActionProposals
    case TooManyDrifts => m.decisionDrifts > t.maxDecisionDrifts
    case FalseBlockedRate => Rate(m.falseBlocked, m.cycles) > t.maxFalseBlockedRate
    case EscalationRate => Rate(m.unnecessaryEscalations, m.cycles) > t.maxUnnecessaryEscalationRate
    case ProviderFailureRate => Rate(m.providerFailures, m.cycles) > t.maxProviderFailureRate
  }

  /** `_threshold_failures`: exactly the thresholds missed, in order. */
  method ThresholdFailures(m: Metrics, t: Thresholds) returns (failures: seq<Shortfall>)
    ensures forall s :: s in failures <==> FallsShort(m, t, s)
    ensures failures == [] <==> Meets(m, t)
  {
    failures := [];
    if m.cycles < t.minimumCycles {
      failures := failures + [TooFewCycles];
    }
    if m.unsafeActionProposals > t.maxUnsafeActionProposals {
      failures := failures + [TooManyUnsafe];
    }
    if m.decisionDrifts > t.maxDecisionDrifts {
      failures := failures + [TooManyDrifts];
    }
    var rateChecks := [FalseBlockedRate, EscalationRate, ProviderFailureRate];
    ghost var counted := failures;
    for i := 0 to |rateChecks|
      invariant forall s :: s in failures <==> s in counted || (s in rateChecks[..i] && FallsShort(m, t, s))
    {
      assert rateChecks[..i + 1] == rateChecks[..i] + [rateChecks[i]];
      if FallsShort(m, t, rateChecks[i]) {
        failures := failures + [rateChecks[i]];
      }
    }
    assert rateChecks[..|rateChecks|] == rateChecks;
    assert forall s: Shortfall :: s in rateChecks <==> s.FalseBlockedRate? || s.EscalationRate? || s.ProviderFailureRate?;
    if failures != [] {
      assert failures[0] in failures;
    }
    assert Meets(m, t) <==> forall s :: !FallsShort(m, t, s) by {
      if forall s :: !FallsShort(m, t, s) {
        assert !FallsShort(m, t, TooFewCycles) && !FallsShort(m, t, TooManyUnsafe) && !FallsShort(m, t, TooManyDrifts);
        assert !FallsShort(m, t, FalseBlockedRate) && !FallsShort(m, t, EscalationRate);
        assert !FallsShort(m, t, ProviderFailureRate);
      }
    }
  }

  // ---------- the gate ----------

  predicate DistinctChecks(checks: seq<Check>) {
    forall i, j :: 0 <= i < j < |checks| ==> checks[i].checkId != checks[j].checkId
  }

  /** Every required domain is covered and no mandatory check failed. */
  predicate ChecksPass(checks: seq<Check>, p: Policy) {
    && (forall d :: d in p.requiredDomains ==> d in Covered(checks))
    && (forall c :: c in checks && c.mandatory ==> c.passed)
  }

  /** Why a mode is not granted. */
  datatype Reason = DomainMissing(domain: Domain) | MandatoryFailed(checkId: string) | Missed(shortfall: Shortfall)
    | NeedsAudit

  datatype Report = Report(eligibleModes: seq<Mode>, blockedReasons: map<Mode, seq<Reason>>)

  function Covered(checks: seq<Check>): set<Domain> {
    set c | c in checks :: c.domain
  }

  /** The reason blocks the mode. */
  predicate Blocks(checks: seq<Check>, m: Metrics, p: Policy, mode: Mode, reason: Reason) {
    var complete := forall d :: d in p.requiredDomains ==> d in Covered(checks);
    var passed := forall c :: c in checks && c.mandatory ==> c.passed;
    match reason
    case DomainMissing(d) => d in p.requiredDomains && d !in Covered(checks)
    case MandatoryFailed(id) => complete && exists c :: c in checks && c.mandatory && !c.passed && c.checkId == id
    case Missed(s) =>
      complete && passed &&
      (match mode
       case Shadow => false
       case AutoWithAudit => FallsShort(m, p.autoWithAudit, s)
       case Auto => Meets(m, p.autoWithAudit) && FallsShort(m, p.auto, s))
    case NeedsAudit => complete && passed && mode == Auto && !Meets(m, p.autoWithAudit)
  }

  /** The modes granted, in promotion order. */
  function Granted(checks: seq<Check>, m: Metrics, p: Policy): seq<Mode> {
    if !ChecksPass(checks, p) then []
    else if !Meets(m, p.autoWithAudit) then [Shadow]
    else if !Meets(m, p.auto) then [Shadow, AutoWithAudit]
    else [Shadow, AutoWithAudit, Auto]
  }

  function MissingDomains(required: seq<Domain>, covered: set<Domain>): (reasons: seq<Reason>)
    ensures forall r :: r in reasons <==> r.DomainMissing? && r.domain in required && r.domain !in covered
    ensures reasons == [] <==> forall d :: d in required ==> d in covered
  {
    if required == [] then []
    else
      var rest := MissingDomains(required[1..], covered);
      if required[0] in covered then rest else [DomainMissing(required[0])] + rest
  }

  function FailedChecks(checks: seq<Check>): (reasons: seq<Reason>)
    ensures forall r :: r in reasons <==>
      r.MandatoryFailed? && exists c :: c in checks && c.mandatory && !c.passed && c.checkId == r.checkId
    ensures reasons == [] <==> forall c :: c in checks && c.mandatory ==> c.passed
  {
    if checks == [] then []
    else
      var rest := FailedChecks(checks[1..]);
      if checks[0].mandatory && !checks[0].passed then [MandatoryFailed(checks[0].checkId)] + rest else rest
  }

  function Missing(failures: seq<Shortfall>): (reasons: seq<Reason>)
    ensures forall r :: r in reasons <==> r.Missed? && r.shortfall in failures
  {
    if failures == [] then [] else [Missed(failures[0])] + Missing(failures[1..])
  }

  function BlockAll(reasons: seq<Reason>): map<Mode, seq<Reason>> {
    map[Shadow := reasons, AutoWithAudit := reasons, Auto := reasons]
  }

  /** The mode is blocked exactly when it is not granted, and then exactly by the reasons that block it. */
  ghost predicate ReportedExactly(report: Report, checks: seq<Check>, m: Metrics, p: Policy, mode: Mode) {
    && (mode in report.blockedReasons <==> mode !in Granted(checks, m, p))
    && (mode in report.blockedReasons ==>
          forall reason :: reason in report.blockedReasons[mode] <==> Blocks(checks, m, p, mode, reason))
  }

  /** The report grants exactly the supported modes, and says of each mode exactly what blocks it. */
  method EvaluateQualificationGate(checks: seq<Check>, m: Metrics, p: Policy) returns (r: Result<Report>)
    ensures r.Ok? <==> checks != [] && DistinctChecks(checks)
    ensures r.Ok? ==>
      && r.value.eligibleModes == Granted(checks, m, p)
      && ReportedExactly(r.value, checks, m, p, Shadow)
      && ReportedExactly(r.value, checks, m, p, AutoWithAudit)
      && ReportedExactly(r.value, checks, m, p, Auto)
  {
    if checks == [] {
      return Err("qualification gate requires at least one check");
    }
    if !DistinctChecks(checks) {
      return Err("qualification gate contains duplicate check_id");
    }
    var missing := MissingDomains(p.requiredDomains, Covered(checks));
    if missing != [] {
      return Ok(Report([], BlockAll(missing)));
    }
    var failed := FailedChecks(checks);
    if failed != [] {
      return Ok(Report([], BlockAll(failed)));
    }
    var eligible := [Shadow];
    var auditFailures := ThresholdFailures(m, p.autoWithAudit);
    if auditFailures != [] {
      return Ok(Report(eligible, map[AutoWithAudit := Missing(auditFailures), Auto := [NeedsAudit]]));
    }
    eligible := eligible + [AutoWithAudit];
    var autoFailures := ThresholdFailures(m, p.auto);
    if autoFailures != [] {
      return Ok(Report(eligible, map[Auto := Missing(autoFailures)]));
    }
    eligible := eligible + [Auto];
    return Ok(Report(eligible, map[]));
  }

  /** Under every accepted policy AUTO is granted exactly when the checks pass and AUTO's own thresholds
      hold: the AUTO_WITH_AUDIT prerequisite takes nothing away. */
  lemma AutoIsExact(checks: seq<Check>, m: Metrics, p: Policy)
    requires PolicyAccepted(p)
    ensures Auto in Granted(checks, m, p) <==> ChecksPass(checks, p) && Meets(m, p.auto)
    ensures AutoWithAudit in Granted(checks, m, p) <==> ChecksPass(checks, p) && Meets(m, p.autoWithAudit)
    ensures Shadow in Granted(checks, m, p) <==> ChecksPass(checks, p)
  {
  }

  /** Without the policy's own consistency check the prerequisite would take AUTO away. */
  lemma PrerequisiteNeedsThePolicyCheck()
    ensures exists checks: seq<Check>, m: Metrics, p: Policy ::
      !PolicyAccepted(p) && MetricsAccepted(m) && ChecksPass(checks, p) && Meets(m, p.auto)
      && Auto !in Granted(checks, m, p)
  {
    var checks := [Check("c", Reasoning, true, true)];
    var m := Metrics(1, 0, 0, 0, 0, 0);
    var p := Policy([Reasoning], Thresholds(2, 0, 0, 0.0, 0.0, 0.0), Thresholds(1, 0, 0, 0.0, 0.0, 0.0));
    assert checks[0] in checks && checks[0].domain == Reasoning;
    assert ChecksPass(checks, p);
    assert Meets(m, p.auto) && !Meets(m, p.autoWithAudit) && !PolicyAccepted(p);
  }

  predicate NoBetter(worse: Metrics, m: Metrics) {
    && worse.cycles == m.cycles
    && worse.unsafeActionProposals >= m.unsafeActionProposals && worse.decisionDrifts >= m.decisionDrifts
    && worse.falseBlocked >= m.falseBlocked && worse.unnecessaryEscalations >= m.unnecessaryEscalations
    && worse.providerFailures >= m.providerFailures
  }

  lemma RateRises(fewer: nat, more: nat, cycles: nat)
    requires fewer <= more
    ensures Rate(fewer, cycles) <= Rate(more, cycles)
  {
    if cycles > 0 {
      DivisionMonotone(fewer as real, more as real, cycles as real);
    }
  }

  lemma DivisionMonotone(a: real, b: real, c: real)
    requires a <= b && c > 0.0
    ensures a / c <= b / c
  {
    var d := b / c - a / c;
    assert d * c == b - a;
  }

  lemma WorseMeetsLess(worse: Metrics, m: Metrics, t: Thresholds)
    requires NoBetter(worse, m)
    ensures Meets(worse, t) ==> Meets(m, t)
  {
    RateRises(m.falseBlocked, worse.falseBlocked, m.cycles);
    RateRises(m.unnecessaryEscalations, worse.unnecessaryEscalations, m.cycles);
    RateRises(m.providerFailures, worse.providerFailures, m.cycles);
  }

  /** At the same number of cycles, worse counts never add a mode: what is granted is a prefix. */
  lemma WorseCountsNeverPromote(checks: seq<Check>, worse: Metrics, m: Metrics, p: Policy)
    requires NoBetter(worse, m)
    ensures Granted(checks, worse, p) <= Granted(checks, m, p)
  {
    WorseMeetsLess(worse, m, p.autoWithAudit);
    WorseMeetsLess(worse, m, p.auto);
  }
}

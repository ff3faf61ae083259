/**
 * The lane classifier: re-evaluates the three gates of an event against a
 * policy and assigns the triage lane. "Now" enters only through
 * `hoursToTca`, the signed number of hours from now until the event's TCA.
 */
module Policy {
  import opened Numbers
  import opened Wrappers
  import opened Types

  /** Analytic probability above which an event inside the warning window is urgent (1e-3). */
  const ActionPc := Fin(0.001)

  /** Every gate statistic is strictly below its own threshold. */
  predicate GatesPass(g: Gates, p: PolicyConfig) {
    && Lt(g.eta.value, p.etaThreshold)
    && Lt(g.tangency.value, p.tangencyThreshold)
    && Lt(g.conditioning.value, p.conditioningThreshold)
  }

  /** The TCA lies less than the warning time away (past events included). */
  predicate WithinWarning(hoursToTca: Num, p: PolicyConfig) {
    Lt(hoursToTca, p.warningTimeThreshold)
  }

  /** The conditions under which an event goes to ACTION_NOW. */
  predicate Urgent(e: CdmEvent, p: PolicyConfig, hoursToTca: Num) {
    && WithinWarning(hoursToTca, p)
    && (Gt(e.pcAnalytic, ActionPc) || (e.pcMc.Some? && Gt(e.pcMc.value, p.pcRedThreshold)))
  }

  /** The conditions under which an event needs at least a Monte Carlo run. */
  predicate NeedsMc(e: CdmEvent, p: PolicyConfig) {
    Ge(e.pcAnalytic, p.pcRedThreshold) || !GatesPass(e.gates, p)
  }

  /** An event whose gates and lane are already those the policy assigns. */
  predicate Classified(e: CdmEvent, p: PolicyConfig, hoursToTca: Num) {
    ApplyPolicy(e, p, hoursToTca) == e
  }

  /**
   * `applyPolicy`: recompute the three `passed` flags, then escalate the lane
   * step by step exactly as the source does, starting from ANALYTIC_OK.
   */
  function ApplyPolicy(e: CdmEvent, p: PolicyConfig, hoursToTca: Num): (r: CdmEvent)
    ensures r == e.(gates := r.gates, lane := r.lane)
    ensures r.gates.eta == e.gates.eta.(passed := Lt(e.gates.eta.value, p.etaThreshold))
    ensures r.gates.tangency == e.gates.tangency.(passed := Lt(e.gates.tangency.value, p.tangencyThreshold))
    ensures r.gates.conditioning == e.gates.conditioning.(passed := Lt(e.gates.conditioning.value, p.conditioningThreshold))
    ensures r.lane == ActionNow <==> Urgent(e, p, hoursToTca)
    ensures r.lane == McRequired <==> !Urgent(e, p, hoursToTca) && NeedsMc(e, p)
    ensures r.lane == AnalyticOk <==> !Urgent(e, p, hoursToTca) && !NeedsMc(e, p)
  {
    var g := e.gates;
    var etaPassed := Lt(g.eta.value, p.etaThreshold);
    var tanPassed := Lt(g.tangency.value, p.tangencyThreshold);
    var condPassed := Lt(g.conditioning.value, p.conditioningThreshold);
    var lane0 := AnalyticOk;
    var lane1 :=
      if Ge(e.pcAnalytic, p.pcRedThreshold) then McRequired
      else if !etaPassed || !tanPassed || !condPassed then McRequired
      else lane0;
    var lane2 :=
      if Gt(e.pcAnalytic, ActionPc) && Lt(hoursToTca, p.warningTimeThreshold) then ActionNow
      else lane1;
    var lane3 :=
      if e.pcMc.Some? && Gt(e.pcMc.value, p.pcRedThreshold) && Lt(hoursToTca, p.warningTimeThreshold) then ActionNow
      else lane2;
    e.(lane := lane3,
       gates := Gates(g.eta.(passed := etaPassed),
                      g.tangency.(passed := tanPassed),
                      g.conditioning.(passed := condPassed)))
  }

  /** Classifying twice under the same policy and clock is classifying once. */
  lemma ApplyPolicyIdempotent(e: CdmEvent, p: PolicyConfig, hoursToTca: Num)
    ensures Classified(ApplyPolicy(e, p, hoursToTca), p, hoursToTca)
  {
  }

  /** The lane depends on the stored `passed` flags and lane of the input not at all. */
  lemma ApplyPolicyIgnoresStoredVerdicts(e: CdmEvent, p: PolicyConfig, hoursToTca: Num, lane: TriageLane,
                                         etaOk: bool, tanOk: bool, condOk: bool)
    ensures var e' := e.(lane := lane,
                         gates := Gates(e.gates.eta.(passed := etaOk),
                                        e.gates.tangency.(passed := tanOk),
                                        e.gates.conditioning.(passed := condOk)));
            ApplyPolicy(e', p, hoursToTca) == ApplyPolicy(e, p, hoursToTca)
  {
  }

  /** Raising the analytic probability (NaN counts as lowest) never lowers the lane. */
  lemma LaneMonotoneInPcAnalytic(e: CdmEvent, p: PolicyConfig, hoursToTca: Num, lo: Num, hi: Num)
    requires NumLe(lo, hi)
    ensures Severity(ApplyPolicy(e.(pcAnalytic := lo), p, hoursToTca).lane)
            <= Severity(ApplyPolicy(e.(pcAnalytic := hi), p, hoursToTca).lane)
  {
  }

  /** Moving the TCA closer (NaN hours count as farthest) never lowers the lane. */
  lemma LaneMonotoneInTimeToTca(e: CdmEvent, p: PolicyConfig, sooner: Num, later: Num)
    requires later.NaN? || (sooner.Fin? && later.Fin? && sooner.v <= later.v)
    ensures Severity(ApplyPolicy(e, p, later).lane) <= Severity(ApplyPolicy(e, p, sooner).lane)
  {
  }

  /** A gate whose statistic is NaN fails, and the event is never ANALYTIC_OK. */
  lemma NaNGateFails(e: CdmEvent, p: PolicyConfig, hoursToTca: Num)
    requires e.gates.eta.value.NaN? || e.gates.tangency.value.NaN? || e.gates.conditioning.value.NaN?
    ensures var r := ApplyPolicy(e, p, hoursToTca);
            !(r.gates.eta.passed && r.gates.tangency.passed && r.gates.conditioning.passed)
            && r.lane != AnalyticOk
  {
  }

  /** An event whose TCA is already past is still inside a positive warning window. */
  lemma PastTcaIsWithinWarning(e: CdmEvent, p: PolicyConfig, hoursToTca: Num)
    requires hoursToTca.Fin? && hoursToTca.v < 0.0
    requires p.warningTimeThreshold.Fin? && p.warningTimeThreshold.v > 0.0
    requires Gt(e.pcAnalytic, ActionPc)
    ensures ApplyPolicy(e, p, hoursToTca).lane == ActionNow
  {
  }

  /** Shorthand for the scenarios below: an event with the given probabilities and gate values. */
  function ScenarioEvent(pc: real, eta: real, tangency: real, conditioning: real): CdmEvent {
    CdmEvent("CDM-1", "SAT-A", "SAT-B", "2024-01-01T10:00:00.000Z", "2024-01-01T00:00:00.000Z",
             Fin(500.0), Fin(7500.0), Fin(pc), None, Fin(5.0),
             Gates(GateResult(Fin(eta), true, ""), GateResult(Fin(tangency), true, ""),
                   GateResult(Fin(conditioning), true, "")),
             AnalyticOk,
             Vector3(Fin(0.0), Fin(0.0), Fin(0.0)), Vector3(Fin(0.0), Fin(0.0), Fin(0.0)),
             Vector3(Fin(50.0), Fin(500.0), Fin(50.0)))
  }

  /** Low probability, all gates passing, two days out: ANALYTIC_OK. */
  lemma ScenarioLowRisk()
    ensures ApplyPolicy(ScenarioEvent(0.00005, 5.0, 0.9, 2.0), DefaultPolicy, Fin(48.0)).lane == AnalyticOk
  {
  }

  /** Probability at or above the red threshold: MC_REQUIRED whatever the gates say. */
  lemma ScenarioAboveRed(eta: real, tangency: real, conditioning: real)
    ensures ApplyPolicy(ScenarioEvent(0.0002, eta, tangency, conditioning), DefaultPolicy, Fin(48.0)).lane
            == McRequired
  {
  }

  /** High probability ten hours out: ACTION_NOW. */
  lemma ScenarioUrgent()
    ensures ApplyPolicy(ScenarioEvent(0.002, 5.0, 0.9, 2.0), DefaultPolicy, Fin(10.0)).lane == ActionNow
  {
  }
}

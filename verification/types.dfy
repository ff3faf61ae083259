/**
 * The record types of the triage system. Each source interface becomes a
 * closed datatype: a lane is one of exactly three values, `Gates` always
 * holds exactly the three named gate results, and in an event only `pcMc`
 * is optional.
 */
module Types {
  import opened Numbers
  import opened Wrappers

  /** Triage lanes, in increasing severity. */
  datatype TriageLane = AnalyticOk | McRequired | ActionNow

  /** Position of a lane in the severity order ANALYTIC_OK < MC_REQUIRED < ACTION_NOW. */
  function Severity(lane: TriageLane): (n: nat)
    ensures n < 3
  {
    match lane
    case AnalyticOk => 0
    case McRequired => 1
    case ActionNow => 2
  }

  /** One diagnostic check: its statistic, its outcome and a justification. */
  datatype GateResult = GateResult(value: Num, passed: bool, reason: string)

  datatype Gates = Gates(eta: GateResult, tangency: GateResult, conditioning: GateResult)

  datatype Vector3 = Vector3(x: Num, y: Num, z: Num)

  /** A conjunction data message after triage. */
  datatype CdmEvent = CdmEvent(
    id: string,
    object1: string,
    object2: string,
    tca: string,
    creationDate: string,
    missDistance: Num,
    relativeSpeed: Num,
    pcAnalytic: Num,
    pcMc: Option<Num>,
    hbr: Num,
    gates: Gates,
    lane: TriageLane,
    relativePosition: Vector3,
    relativeVelocity: Vector3,
    covarianceDiagonal: Vector3)

  /** The five thresholds that make up a triage policy. */
  datatype PolicyConfig = PolicyConfig(
    pcRedThreshold: Num,
    etaThreshold: Num,
    tangencyThreshold: Num,
    conditioningThreshold: Num,
    warningTimeThreshold: Num)

  /** The policy the application starts with (and seeds demo data under). */
  const DefaultPolicy := PolicyConfig(Fin(0.0001), Fin(10.0), Fin(0.97), Fin(5.0), Fin(24.0))
}

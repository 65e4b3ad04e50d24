/** The stored objects of the control plane: AgentRequests with their phase and
    conditions, OpsLock leases, GovernedResources and AuditRecord keys. */
module Api {

  datatype Option<+T> = None | Some(value: T)

  /** Status.Phase; `Unset` is the empty string of a request no reconcile has seen yet. */
  datatype Phase =
    | Unset | Pending | Approved | Denied | Executing | Completed
    | Failed | AwaitingVerdict | Expired | Observed

  /** The phases on which Reconcile returns at once. */
  predicate Settled(p: Phase) {
    p == Completed || p == Failed || p == Denied || p == Expired || p == Observed
  }

  /** The phases in which a request is meant to hold its OpsLock. */
  predicate Active(p: Phase) {
    p == Approved || p == Executing
  }

  /** The phases the collector and the dedup path may delete; unlike `Settled` it leaves out Observed. */
  predicate Terminal(p: Phase) {
    p == Completed || p == Failed || p == Denied || p == Expired
  }

  /** One status condition; `since` is its lastTransitionTime. */
  datatype Cond = Absent | Cond(status: bool, since: int) {
    predicate IsTrue() {
      Cond? && status
    }

    /** meta.SetStatusCondition: the transition time moves only when the status flips. */
    function Set(status: bool, t: int): Cond {
      if Cond? && this.status == status then this else Cond(status, t)
    }
  }

  /** Outcome of SafetyPolicy evaluation. */
  datatype Action = Allow | Log | RequireApproval | Deny

  /** The conditions list, one entry per type. Patches replace it as a whole. `basis` is history that
      travels with the list: the result of the evaluation that set PolicyEvaluated. */
  datatype Conds = Conds(
    submitted: Cond, evaluated: Cond, approved: Cond, requiresApproval: Cond,
    executing: Cond, completed: Cond, failed: Cond, basis: Option<Action>)

  const NO_CONDS := Conds(Absent, Absent, Absent, Absent, Absent, Absent, Absent, None)

  /** The conditions an agent's progress reports set through the gateway. */
  datatype Signal = SigExecuting | SigCompleted | SigFailed

  function WithSignal(cs: Conds, sig: Signal, t: int): Conds {
    match sig
    case SigExecuting => cs.(executing := cs.executing.Set(true, t))
    case SigCompleted => cs.(completed := cs.completed.Set(true, t))
    case SigFailed => cs.(failed := cs.failed.Set(true, t))
  }

  datatype Ref = Ref(name: string, generation: int)

  datatype Decision = Decision(approve: bool, reviewer: string)

  datatype Grade = Correct | Partial | Incorrect

  /** The five verdict fields a reviewer writes together. */
  datatype Verdict = Verdict(grade: Grade, reasonCode: string, note: string, reviewer: string, at: int)

  /** What is fixed when the gateway creates the request: spec fields and annotations.
      `cannotExecute` and `skipHuman` are the trust gate's can-execute="false" and
      requires-human-approval="false". */
  datatype Spec = Spec(
    agent: string, uri: string, created: int, observe: bool, ref: Option<Ref>,
    gatewayDenied: bool, cannotExecute: bool, skipHuman: bool)

  datatype Request = Request(
    spec: Spec, human: Option<Decision>, phase: Phase, conds: Conds,
    verdict: Option<Verdict>, version: nat)

  datatype Lease = Lease(holder: string, acquired: int, renewed: int, seconds: int)

  datatype Event =
    | RequestSubmitted | RequestObserved | RequestApproved | RequestDenied
    | RequestExecuting | RequestCompleted | RequestFailed | RequestExpired
    | VerdictSubmitted | LockAcquired | LockReleased | LockExpired
    | PolicyEvaluated | HeartbeatTimeout

  datatype AuditKey = AuditKey(request: string, event: Event, from: Phase, to: Phase)

  const SECOND: int := 1_000_000_000
  const MINUTE: int := 60 * SECOND
  const HOUR: int := 60 * MINUTE

  /** Go's int32(x) conversion. */
  function ToInt32(x: int): int {
    (x + 0x8000_0000) % 0x1_0000_0000 - 0x8000_0000
  }

  function Max(a: int, b: int): int {
    if a < b then b else a
  }
}

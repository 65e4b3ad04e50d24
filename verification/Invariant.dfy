/** The inductive invariant of the lifecycle machine, stated request by request: what holds of
    a stored request and its history, of a handler's snapshot of it, of the running reconcile,
    and of its lease. */
module Invariant {
  import opened Api
  import opened TrustGate
  import opened Lifecycle
  import opened Phases

  // ---------- approval provenance ----------

  /** The evaluation did not deny the request, and if it asked for approval then either the trust gate
      waived the human or `lifted` says the question is settled. */
  predicate Settles(spec: Spec, basis: Option<Action>, lifted: bool) {
    basis.Some? && basis.value != Deny && (basis.value == RequireApproval ==> spec.skipHuman || lifted)
  }

  /** That evaluation is one whose patch was stored. */
  predicate Grounded(e: Entry, basis: Option<Action>, lifted: bool) {
    Settles(e.r.spec, basis, lifted) && basis.value in e.committed
  }

  /** A conditions list seen before approval that claims PolicyEvaluated is grounded in the evaluation
      it stems from, with RequiresApproval standing for the open question. */
  predicate Sourced(e: Entry, phase: Phase, cs: Conds) {
    (phase == Unset || phase == Pending) && cs.evaluated.IsTrue() ==>
      Grounded(e, cs.basis, cs.requiresApproval.IsTrue())
  }

  predicate SaysApproved(human: Option<Decision>) {
    human.Some? && human.value.approve
  }

  /** Stored decisions never come from the requesting agent. */
  predicate ReviewedByOther(spec: Spec, human: Option<Decision>) {
    human.Some? ==> human.value.reviewer != spec.agent
  }

  /** A reconcile that got past the integrity check read the admitted generation. */
  predicate SeenAdmitted(spec: Spec, seen: Option<int>) {
    spec.ref.Some? ==> seen == Some(spec.ref.value.generation)
  }

  predicate ApprovalSound(e: Entry) {
    && (Approved in e.path <==> e.approval.Some?)
    && (e.approval.Some? ==>
          && Grounded(e, e.approval.value.basis, SaysApproved(e.approval.value.human))
          && ReviewedByOther(e.r.spec, e.approval.value.human)
          && SeenAdmitted(e.r.spec, e.approval.value.seen))
  }

  // ---------- trust gate ----------

  /** Requests the gateway has barred from execution. */
  predicate Barred(spec: Spec) {
    spec.gatewayDenied || (spec.cannotExecute && !spec.observe)
  }

  predicate BarredPhase(p: Phase) {
    p != Pending && !Active(p)
  }

  predicate BarredSound(e: Entry) {
    Barred(e.r.spec) ==>
      && Pending !in e.path && Approved !in e.path && Executing !in e.path
      && BarredPhase(e.r.phase)
      && (e.r.phase == Completed ==> e.r.verdict.Some?)
  }

  /** The resource has trust requirements and the gate does not grant execution. */
  ghost predicate GateRefuses(g: GateInput) {
    g.requirements.Some? && !Grants(g)
  }

  /** The gate lets the agent in and asks for no human. */
  ghost predicate GateWaives(g: GateInput) {
    !TooLow(g) && Waives(g)
  }

  /** Admission stamped exactly what the gate found: over HTTP an action that is not permitted is denied
      at the gateway and a level too low is turned away; over MCP that is left to grading. */
  ghost predicate OriginSound(e: Entry) {
    var spec := e.r.spec;
    match e.origin
    case Http(gate, permitted) =>
      && !spec.observe
      && (spec.gatewayDenied <==> spec.ref.Some? && !permitted)
      && (spec.cannotExecute <==> spec.ref.Some? && permitted && GateRefuses(gate))
      && (spec.skipHuman <==> spec.ref.Some? && permitted && GateWaives(gate))
    case Mcp(gate) =>
      && !spec.observe && !spec.gatewayDenied
      && (spec.cannotExecute <==> spec.ref.Some? && gate.Some? && (GateRefuses(gate.value) || TooLow(gate.value)))
      && (spec.skipHuman <==> spec.ref.Some? && gate.Some? && GateWaives(gate.value))
    case Direct => true
  }

  /** Where a waiver of the human comes from: the trust gate, unless the request was created directly. */
  ghost predicate WaivedByGate(e: Entry) {
    && e.r.spec.skipHuman
    && (e.origin.Http? ==> e.origin.permitted && GateWaives(e.origin.gate))
    && (e.origin.Mcp? ==> e.origin.mcpGate.Some? && GateWaives(e.origin.mcpGate.value))
  }

  // ---------- conditions lists ----------

  /** The agent has reported nothing. */
  predicate Unsignaled(cs: Conds) {
    !cs.executing.IsTrue() && !cs.completed.IsTrue() && !cs.failed.IsTrue()
  }

  /** A list with Approved=True carries a transition time no earlier than the first on record, and that
      very one as long as the agent has reported nothing. */
  predicate Covered(e: Entry, cs: Conds) {
    cs.approved.IsTrue() ==>
      && e.approvedAt.Some? && e.approvedAt.value <= Since(cs)
      && (Unsignaled(cs) ==> Since(cs) == e.approvedAt.value)
  }

  /** Once there has been an approval, a list without reports still says so. */
  predicate Firm(e: Entry, phase: Phase, cs: Conds) {
    e.approvedAt.Some? && Unsignaled(cs) && !Settled(phase) ==> cs.approved.IsTrue()
  }

  /** What holds of every conditions list of a request, stored or in some snapshot. */
  predicate ListOk(e: Entry, cs: Conds) {
    && Sourced(e, e.r.phase, cs)
    && Covered(e, cs)
    && (Barred(e.r.spec) ==> !cs.completed.IsTrue() && !cs.executing.IsTrue())
  }

  /** What holds of a list about to be stored together with phase `to` by a reconcile at time `t`. */
  predicate NextListOk(e: Entry, to: Phase, cs: Conds, t: int) {
    && (cs.approved.IsTrue() ==> if e.approvedAt.Some? then Covered(e, cs) else Since(cs) == t)
    && Firm(e, to, cs)
    && (Barred(e.r.spec) ==> !cs.completed.IsTrue() && !cs.executing.IsTrue())
  }

  /** A request that was ever Approved has had an approval on its list. */
  predicate MarkedSound(e: Entry) {
    Approved in e.path ==> e.approvedAt.Some?
  }

  /** The first approval on record is not in the future. */
  predicate Timely(e: Entry, t: int) {
    e.approvedAt.Some? ==> e.approvedAt.value <= t
  }

  // ---------- verdicts, losses, deletions ----------

  predicate VerdictSound(e: Entry) {
    e.verdicts == if e.r.verdict.Some? then [Graded(e.r.verdict.value, AwaitingVerdict)] else []
  }

  /** A lease is only ever lost after it ran out, or given up after the approval timed out. */
  predicate Justified(cfg: Config, loss: Loss) {
    match loss
    case Lapsed(at, renewed, seconds) => at > renewed + seconds * SECOND
    case GivenUp(at, since) => at > since + ApprovedTimeout(cfg)
  }

  predicate LossSound(cfg: Config, e: Entry) {
    e.loss.Some? ==> Justified(cfg, e.loss.value)
  }

  predicate DeletionSound(cfg: Config, e: Entry) {
    && (e.deleted.Some? <==> !e.live)
    && (e.deleted.Some? ==>
          && e.deleted.value.phase == e.r.phase && Terminal(e.r.phase)
          && (e.deleted.value.collected ==>
                cfg.hardTTL != 0 && !cfg.dryRun && e.deleted.value.age >= cfg.hardTTL))
  }

  /** AuditRecords are deleted only once the request is at an end. */
  predicate SweptSound(e: Entry) {
    e.swept ==> Terminal(e.r.phase)
  }

  ghost predicate EntryInv(cfg: Config, e: Entry) {
    && PathInv(e)
    && ListOk(e, e.r.conds)
    && Firm(e, e.r.phase, e.r.conds)
    && ReviewedByOther(e.r.spec, e.r.human)
    && ApprovalSound(e)
    && MarkedSound(e)
    && BarredSound(e)
    && OriginSound(e)
    && VerdictSound(e)
    && LossSound(cfg, e)
    && DeletionSound(cfg, e)
    && SweptSound(e)
  }

  // ---------- handlers ----------

  predicate OnlyFails(todo: seq<Signal>) {
    forall i :: 0 <= i < |todo| ==> todo[i] == SigFailed
  }

  /** What holds of a handler's snapshot, however old, against the request as it is now. */
  predicate TaskInv(e: Entry, task: Task)
    requires !task.Finished?
  {
    match task
    case Conditioning(_, todo, snap) =>
      (snap.Some? ==> ListOk(e, snap.value)) && (Barred(e.r.spec) ==> OnlyFails(todo))
    case Deciding(_, d) => ReviewedByOther(e.r.spec, Some(d))
    case Grading(_, _, read) =>
      && read.phase == AwaitingVerdict && read.verdict.None? && read.version <= e.r.version
      && (read.version == e.r.version ==> e.r == read)
    case Collecting(_, read, _) =>
      read.spec == e.r.spec && (Settled(read.phase) ==> e.r.phase == read.phase)
  }

  /** A collector pass has judged only what was due, at some time in the past. */
  predicate JudgedDue(cfg: Config, task: Task, now: int) {
    task.Collecting? && task.judged.Some? ==>
      && Terminal(task.read.phase) && cfg.hardTTL != 0 && !cfg.dryRun
      && task.judged.value - task.read.spec.created >= cfg.hardTTL && task.judged.value <= now
  }

  // ---------- leases ----------

  /** The holder's renewal time is covered by its acquisition or its first approval's window. */
  predicate RenewalBounded(cfg: Config, l: Lease, e: Entry) {
    && l.seconds == LeaseSeconds(cfg)
    && (l.renewed <= l.acquired || (e.approvedAt.Some? && l.renewed <= e.approvedAt.value + ApprovedTimeout(cfg)))
  }

  /** An active request holds its lease exactly when history records no loss. */
  predicate LeaseInv(cfg: Config, leases: map<string, Lease>, n: string, e: Entry) {
    && (Active(e.r.phase) ==> (e.loss.None? <==> Holds(cfg, leases, n, e.r.spec)))
    && (!Active(e.r.phase) && !Settled(e.r.phase) ==> e.loss.None?)
    && (Holds(cfg, leases, n, e.r.spec) ==>
          !Barred(e.r.spec) && RenewalBounded(cfg, leases[LeaseName(cfg, e.r.spec.uri)], e))
  }

  /** Every lease belongs to a known request on its target. */
  ghost predicate Owned(cfg: Config, entries: map<string, Entry>, ln: string, l: Lease) {
    exists n :: n in entries && IsOwner(cfg, n, entries[n], ln, l)
  }

  predicate IsOwner(cfg: Config, n: string, e: Entry, ln: string, l: Lease) {
    l.holder == HolderId(e.r.spec, n) && ln == LeaseName(cfg, e.r.spec.uri)
  }

  // ---------- the running reconcile ----------

  /** Before the phase patch: the plan fits the phase, and what the patch will store is sound. */
  predicate MoveInv(cfg: Config, leases: map<string, Lease>, e: Entry, b: Ctl, tr: Transition)
    requires b.Busy?
  {
    && Planned(tr) && b.ar.phase == tr.from
    && (tr.conds.Some? ==> NextListOk(e, tr.to, tr.conds.value, b.t) && Sourced(e, tr.to, tr.conds.value))
    && (tr.to == Approved ==>
          && tr.conds.Some? && tr.conds.value.approved.IsTrue()
          && Holds(cfg, leases, b.n, b.ar.spec) && Grounded(e, b.ar.conds.basis, SaysApproved(b.ar.human))
          && SeenAdmitted(b.ar.spec, b.seen))
    && (Barred(b.ar.spec) ==> BarredPhase(tr.to) && (tr.to == Completed ==> e.r.verdict.Some?))
    && (tr.cleanup == DropLease ==> Holds(cfg, leases, b.n, b.ar.spec))
  }

  predicate PcInv(cfg: Config, leases: map<string, Lease>, e: Entry, b: Ctl)
    requires b.Busy?
  {
    match b.pc
    case Fetched => !Settled(b.ar.phase) && ListOk(e, b.ar.conds) && Firm(e, b.ar.phase, b.ar.conds)
    case Checked =>
      && !Settled(b.ar.phase) && ListOk(e, b.ar.conds) && Firm(e, b.ar.phase, b.ar.conds)
      && SeenAdmitted(b.ar.spec, b.seen)
    case Releasing(tr) =>
      && MoveInv(cfg, leases, e, b, tr) && tr.from == Approved && tr.to == Failed && tr.cleanup == NoCleanup
      && ApprovalTimedOut(cfg, b.ar.conds, b.t)
    case Moving(tr) => MoveInv(cfg, leases, e, b, tr)
    case Cleaning(tr) =>
      && Planned(tr) && EndsWith(e.path, tr) && tr.cleanup != NoCleanup
      && (tr.cleanup == DropLease ==> Holds(cfg, leases, b.n, b.ar.spec))
    case Recording(tr, _) => Planned(tr) && EndsWith(e.path, tr)
    case Noting(cs, acquire) =>
      && b.ar.phase == Pending && NextListOk(e, Pending, cs, b.t) && SeenAdmitted(b.ar.spec, b.seen)
      && Settles(e.r.spec, cs.basis, !acquire && cs.requiresApproval.IsTrue())
    case NotingAudit(acquire) =>
      && b.ar.phase == Pending && SeenAdmitted(b.ar.spec, b.seen) && (acquire ==> Grounded(e, b.ar.conds.basis, false))
      && Covered(e, b.ar.conds) && Firm(e, Pending, b.ar.conds)
    case Acquiring =>
      && b.ar.phase == Pending && SeenAdmitted(b.ar.spec, b.seen)
      && Grounded(e, b.ar.conds.basis, SaysApproved(b.ar.human))
      && Covered(e, b.ar.conds) && Firm(e, Pending, b.ar.conds)
    case Renewing =>
      && b.ar.phase == Approved && b.ar.conds.approved.IsTrue() && Unsignaled(b.ar.conds)
      && !ApprovalTimedOut(cfg, b.ar.conds, b.t) && Covered(e, b.ar.conds)
  }

  /** The reconcile works on the phase that is stored; its copy is otherwise possibly old. */
  predicate CtlInv(cfg: Config, leases: map<string, Lease>, e: Entry, b: Ctl, now: int)
    requires b.Busy?
  {
    && b.t <= now && Timely(e, b.t) && b.ar.spec == e.r.spec && b.ar.phase == e.r.phase
    && ReviewedByOther(b.ar.spec, b.ar.human)
    && (b.ar.verdict.Some? ==> e.r.verdict.Some?)
    && PcInv(cfg, leases, e, b)
  }

  // ---------- the whole state ----------

  ghost predicate EntriesInv(cfg: Config, entries: map<string, Entry>) {
    forall n :: n in entries ==> GoodName(n) && EntryInv(cfg, entries[n])
  }

  ghost predicate LeasesInv(cfg: Config, entries: map<string, Entry>, leases: map<string, Lease>) {
    && (forall n :: n in entries ==> LeaseInv(cfg, leases, n, entries[n]))
    && (forall ln :: ln in leases ==> Owned(cfg, entries, ln, leases[ln]))
  }

  ghost predicate TasksInv(entries: map<string, Entry>, tasks: map<nat, Task>) {
    forall id :: id in tasks && !tasks[id].Finished? ==>
      tasks[id].n in entries && TaskInv(entries[tasks[id].n], tasks[id])
  }

  predicate TokensInv(entries: map<string, Entry>, tokens: set<string>) {
    forall n :: n in tokens ==> n in entries && !Barred(entries[n].r.spec)
  }

  predicate WorkerInv(cfg: Config, entries: map<string, Entry>, leases: map<string, Lease>, b: Ctl, now: int) {
    b.Busy? ==> b.n in entries && CtlInv(cfg, leases, entries[b.n], b, now)
  }

  predicate JudgedInv(cfg: Config, tasks: map<nat, Task>, now: int) {
    forall id :: id in tasks ==> JudgedDue(cfg, tasks[id], now)
  }

  predicate TimesInv(entries: map<string, Entry>, now: int) {
    forall n :: n in entries ==> Timely(entries[n], now)
  }

  ghost predicate Inv(cfg: Config, s: State) {
    && EntriesInv(cfg, s.entries)
    && TimesInv(s.entries, s.now)
    && LeasesInv(cfg, s.entries, s.leases)
    && TasksInv(s.entries, s.tasks)
    && JudgedInv(cfg, s.tasks, s.now)
    && TokensInv(s.entries, s.tokens)
    && WorkerInv(cfg, s.entries, s.leases, s.ctl, s.now)
  }

  // ---------- evolution of one request ----------

  /** How a request may change in one step; every snapshot survives it. */
  predicate Evolves(e: Entry, e': Entry) {
    && e'.r.spec == e.r.spec
    && e.committed <= e'.committed
    && (e.approvedAt.Some? ==> e'.approvedAt == e.approvedAt)
    && Height(e'.r.phase) <= Height(e.r.phase)
    && (Settled(e.r.phase) ==> e'.r.phase == e.r.phase)
    && e.r.version <= e'.r.version && (e'.r.version == e.r.version ==> e'.r == e.r)
  }

  lemma ListSurvives(e: Entry, e': Entry, cs: Conds)
    requires Evolves(e, e') && ListOk(e, cs)
    ensures ListOk(e', cs)
  {
  }

  lemma TaskSurvives(e: Entry, e': Entry, task: Task)
    requires Evolves(e, e') && !task.Finished? && TaskInv(e, task)
    ensures TaskInv(e', task)
  {
    if task.Conditioning? && task.snap.Some? { ListSurvives(e, e', task.snap.value); }
    hide ListOk;
  }
}

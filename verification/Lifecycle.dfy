/** The AgentRequest lifecycle and the OpsLock lease protocol as a step machine.

    One controller worker drives requests; between any two of its API calls the clock may
    move, gateway handlers may read and write, administrators may change GovernedResources,
    the collector may delete, and the controller process may die. Every controller step makes
    at most one API write, so `Crash` can strike after any of them. Gateway handlers keep the
    conditions they read in `tasks` until they write, so a late write puts back an older list.

    A run is any sequence of steps; a step that is not enabled leaves the state unchanged. */
module Lifecycle {
  import opened Api
  import opened TrustGate

  // ---------- configuration ----------

  /** Durations are nanoseconds as configured; `sha` is the hex SHA-256 digest. */
  datatype Config = Config(
    opsLockDuration: int, lockWaitDuration: int, approvedTimeout: int,
    sha: string -> string, jwtConfigured: bool, hardTTL: int, dryRun: bool)

  const VERDICT_TTL: int := 168 * HOUR

  function OpsLockDuration(cfg: Config): int {
    if cfg.opsLockDuration <= 0 then 5 * MINUTE else cfg.opsLockDuration
  }

  function ApprovedTimeout(cfg: Config): int {
    if cfg.approvedTimeout <= 0 then 5 * MINUTE else cfg.approvedTimeout
  }

  function LockWait(cfg: Config): int {
    if cfg.lockWaitDuration > 0 then cfg.lockWaitDuration else 60 * SECOND
  }

  /** LeaseDurationSeconds: whole seconds, cut to 32 bits. */
  function LeaseSeconds(cfg: Config): int {
    ToInt32(OpsLockDuration(cfg) / SECOND)
  }

  function Take(s: string, n: nat): string {
    if |s| > n then s[..n] else s
  }

  function LeaseName(cfg: Config, uri: string): string {
    Take("aip-lock-" + cfg.sha(uri), 253)
  }

  function HolderId(spec: Spec, n: string): string {
    spec.agent + "/" + n
  }

  predicate LeaseExpired(l: Lease, t: int) {
    t > l.renewed + l.seconds * SECOND
  }

  // ---------- state ----------

  datatype Cleanup = NoCleanup | ReleaseLock | DropLease

  /** A phase change of one reconcile: the status patch, what happens to the lease after it,
      and the audit events emitted last. `conds` is None when the patch leaves them alone. */
  datatype Transition = Transition(
    from: Phase, to: Phase, conds: Option<Conds>, cleanup: Cleanup, events: seq<Event>)

  /** Where the running reconcile stands: which API call comes next. */
  datatype Pc =
    | Fetched                              // read the GovernedResource
    | Checked                              // decide what to do
    | Releasing(tr: Transition)            // give up the lock before the patch (approval timeout)
    | Moving(tr: Transition)               // patch the phase
    | Cleaning(tr: Transition)             // release or drop the lease after the patch
    | Recording(tr: Transition, k: nat)    // create audit record number k
    | Noting(conds: Conds, acquire: bool)  // patch the evaluation's conditions
    | NotingAudit(acquire: bool)           // create the policy.evaluated record
    | Acquiring                            // create or take over the lease
    | Renewing                             // heartbeat the lease

  /** `ar` is the reconcile's in-memory object, `t` its clock reading, `seen` the generation
      of the GovernedResource it read. */
  datatype Ctl = Idle | Busy(n: string, t: int, ar: Request, seen: Option<int>, pc: Pc)

  /** A gateway handler or collector pass between two of its API calls. */
  datatype Task =
    | Finished
    | Conditioning(n: string, todo: seq<Signal>, snap: Option<Conds>)
    | Deciding(n: string, decision: Decision)
    | Grading(n: string, verdict: Verdict, read: Request)
    | Collecting(n: string, read: Request, judged: Option<int>)

  /** Why a request that was Approved or Executing no longer holds its lease. */
  datatype Loss =
    | Lapsed(at: int, renewed: int, seconds: int)
    | GivenUp(at: int, since: int)

  /** How a request came in, and what the trust gate was given; None on the MCP path is a failing gate. */
  datatype Origin = Http(gate: GateInput, permitted: bool) | Mcp(mcpGate: Option<GateInput>) | Direct

  /** What the reconcile that approved a request had read: the generation, the human decision and the
      result of the evaluation its conditions list stems from. */
  datatype Approval = Approval(seen: Option<int>, human: Option<Decision>, basis: Option<Action>)

  datatype Graded = Graded(verdict: Verdict, phase: Phase)

  datatype Deletion = Deletion(phase: Phase, age: int, collected: bool)

  /** A request and its history. The history fields are never consulted by the steps; `committed` holds
      the results of the evaluations whose patch was stored. */
  datatype Entry = Entry(
    r: Request, live: bool,
    origin: Origin, path: seq<Phase>, committed: set<Action>, loss: Option<Loss>,
    approval: Option<Approval>, approvedAt: Option<int>, verdicts: seq<Graded>,
    recorded: multiset<AuditKey>, swept: bool, deleted: Option<Deletion>)

  datatype State = State(
    now: int, entries: map<string, Entry>, leases: map<string, Lease>,
    audits: map<string, AuditKey>, tokens: set<string>,
    ctl: Ctl, tasks: map<nat, Task>, crashed: bool)

  function Init(t0: int): State {
    State(t0, map[], map[], map[], {}, Idle, map[], false)
  }

  /** The request is stored on the API server. */
  predicate Stored(s: State, n: string) {
    n in s.entries && s.entries[n].live
  }

  function Put(s: State, n: string, e: Entry): State {
    s.(entries := s.entries[n := e])
  }

  /** A step beside the controller: leases, audit records and the running reconcile stay. */
  predicate Aside(s: State, s': State) {
    s'.leases == s.leases && s'.audits == s.audits && s'.ctl == s.ctl && s'.crashed == s.crashed
  }

  // ---------- admission ----------

  datatype Body = Body(agent: string, uri: string, ref: Option<Ref>)

  function PlainSpec(b: Body, now: int): Spec {
    Spec(b.agent, b.uri, now, false, b.ref, false, false, false)
  }

  /** The HTTP admission pipeline after the resource match: an action the resource does not
      permit is stored as gateway-denied; a rejected trust gate stores nothing. */
  function AdmitHttp(b: Body, gate: GateInput, permitted: bool, now: int): Option<Spec> {
    if b.ref.None? then Some(PlainSpec(b, now))
    else if !permitted then Some(PlainSpec(b, now).(gatewayDenied := true))
    else match Gate(gate.(observe := false))
      case Rejected => None
      case Passed(_, canExecute, requiresHuman) =>
        Some(PlainSpec(b, now).(cannotExecute := canExecute == Some(false),
                                skipHuman := requiresHuman == Some(false)))
  }

  /** The MCP path routes a rejected agent to grading and ignores a failing gate (None). */
  function AdmitMcp(b: Body, gate: Option<GateInput>, now: int): Spec {
    if b.ref.None? || gate.None? then PlainSpec(b, now)
    else match Gate(gate.value.(observe := false))
      case Rejected => PlainSpec(b, now).(cannotExecute := true)
      case Passed(_, canExecute, requiresHuman) =>
        PlainSpec(b, now).(cannotExecute := canExecute == Some(false),
                           skipHuman := requiresHuman == Some(false))
  }

  /** Object names are DNS labels. */
  predicate GoodName(n: string) {
    '/' !in n && '|' !in n
  }

  function NewEntry(spec: Spec, origin: Origin): Entry {
    Entry(Request(spec, None, Unset, NO_CONDS, None, 0), true,
          origin, [Unset], {}, None, None, None, [], multiset{}, false, None)
  }

  function Submitted(s: State, n: string, spec: Spec, origin: Origin): (s': State)
    ensures Aside(s, s')
  {
    if GoodName(n) && n !in s.entries then Put(s, n, NewEntry(spec, origin)) else s
  }

  // ---------- audit records ----------

  function EventText(e: Event): (r: string)
    ensures '|' !in r
  {
    match e
    case RequestSubmitted => "request.submitted"
    case RequestObserved => "request.observed"
    case RequestApproved => "request.approved"
    case RequestDenied => "request.denied"
    case RequestExecuting => "request.executing"
    case RequestCompleted => "request.completed"
    case RequestFailed => "request.failed"
    case RequestExpired => "request.expired"
    case VerdictSubmitted => "verdict.submitted"
    case LockAcquired => "lock.acquired"
    case LockReleased => "lock.released"
    case LockExpired => "lock.expired"
    case PolicyEvaluated => "policy.evaluated"
    case HeartbeatTimeout => "heartbeat.timeout"
  }

  function PhaseText(p: Phase): (r: string)
    ensures '|' !in r
  {
    match p
    case Unset => ""
    case Pending => "Pending"
    case Approved => "Approved"
    case Denied => "Denied"
    case Executing => "Executing"
    case Completed => "Completed"
    case Failed => "Failed"
    case AwaitingVerdict => "AwaitingVerdict"
    case Expired => "Expired"
    case Observed => "Observed"
  }

  function AuditInput(k: AuditKey): string {
    k.request + "|" + EventText(k.event) + "|" + PhaseText(k.from) + "|" + PhaseText(k.to)
  }

  function Digest53(cfg: Config, input: string): string {
    Take(cfg.sha(input), 53)
  }

  /** deterministicAuditName. */
  function AuditName(cfg: Config, k: AuditKey): string {
    Digest53(cfg, AuditInput(k))
  }

  /** The key under which an event of a transition is filed. */
  function KeyOf(n: string, tr: Transition, e: Event): AuditKey {
    match e
    case LockAcquired => AuditKey(n, e, Unset, Unset)
    case LockReleased => AuditKey(n, e, Unset, Unset)
    case PolicyEvaluated => AuditKey(n, e, tr.from, Unset)
    case _ => AuditKey(n, e, tr.from, tr.to)
  }

  function Recorded(e: Entry, k: AuditKey): Entry {
    e.(recorded := e.recorded + multiset{k})
  }

  /** Create an AuditRecord; an existing name is taken as success. */
  function CreateAudit(cfg: Config, s: State, n: string, k: AuditKey): (s': State)
    ensures s'.tasks == s.tasks
  {
    if AuditName(cfg, k) !in s.audits && n in s.entries
    then Put(s, n, Recorded(s.entries[n], k)).(audits := s.audits[AuditName(cfg, k) := k])
    else s
  }

  // ---------- leases ----------

  predicate Holds(cfg: Config, leases: map<string, Lease>, n: string, spec: Spec) {
    var ln := LeaseName(cfg, spec.uri);
    ln in leases && leases[ln].holder == HolderId(spec, n)
  }

  /** The request is Approved or Executing on this lease and holds it. */
  predicate ActiveHolder(cfg: Config, ln: string, l: Lease, n: string, e: Entry) {
    && Active(e.r.phase) && LeaseName(cfg, e.r.spec.uri) == ln
    && l.holder == HolderId(e.r.spec, n)
  }

  /** History notes every active holder that is about to lose the lease. */
  function MarkLost(cfg: Config, entries: map<string, Entry>, ln: string, l: Lease, why: Loss): map<string, Entry> {
    map n | n in entries ::
      if ActiveHolder(cfg, ln, l, n, entries[n]) then entries[n].(loss := Some(why)) else entries[n]
  }

  function RemoveLease(cfg: Config, s: State, ln: string, why: Loss): (s': State)
    ensures s'.audits == s.audits && s'.tasks == s.tasks && s'.crashed == s.crashed
  {
    if ln in s.leases
    then s.(leases := s.leases - {ln}, entries := MarkLost(cfg, s.entries, ln, s.leases[ln], why))
    else s
  }

  /** releaseLock: delete the lease if this request holds it. */
  function Released(cfg: Config, s: State, n: string, spec: Spec, why: Loss): (s': State)
    ensures s'.tasks == s.tasks
  {
    if Holds(cfg, s.leases, n, spec) then RemoveLease(cfg, s, LeaseName(cfg, spec.uri), why) else s
  }

  /** The lease this request writes when it creates or takes over the lock. */
  function OwnLease(cfg: Config, n: string, spec: Spec, t: int): Lease {
    Lease(HolderId(spec, n), t, t, LeaseSeconds(cfg))
  }

  // ---------- the reconcile ----------

  function Since(cs: Conds): int {
    if cs.approved.Cond? then cs.approved.since else 0
  }

  predicate ApprovalTimedOut(cfg: Config, cs: Conds, t: int) {
    cs.approved.IsTrue() && t > Since(cs) + ApprovedTimeout(cfg)
  }

  function Go(b: Ctl, pc: Pc): Ctl
    requires b.Busy?
  {
    b.(pc := pc)
  }

  /** checkGovernedResourceIntegrity on the generation the API server returned (None: not found). */
  function CheckResource(b: Ctl, found: Option<int>): Ctl
    requires b.Busy?
  {
    if b.ar.spec.ref.None? then Go(b, Checked)
    else if found == Some(b.ar.spec.ref.value.generation) then b.(pc := Checked, seen := found)
    else Go(b, Moving(Transition(b.ar.phase, Denied, None, ReleaseLock, [RequestDenied])))
  }

  /** checkAgentTransitions, initializePhase and the phase switch of Reconcile. */
  function Dispatch(cfg: Config, leases: map<string, Lease>, b: Ctl, result: Action, soak: bool): Ctl
    requires b.Busy?
  {
    var ar, cs := b.ar, b.ar.conds;
    if cs.completed.IsTrue() then
      Go(b, Moving(Transition(ar.phase, Completed, None, ReleaseLock, [RequestCompleted, LockReleased])))
    else if cs.failed.IsTrue() then
      Go(b, Moving(Transition(ar.phase, Failed, None, ReleaseLock, [RequestFailed, LockReleased])))
    else if cs.executing.IsTrue() && ar.phase == Approved then
      Go(b, Moving(Transition(Approved, Executing, None, NoCleanup, [LockAcquired, RequestExecuting])))
    else match ar.phase
      case Unset => if cs.submitted.IsTrue() then Idle else Go(b, Moving(Initialize(b, soak)))
      case Pending => DispatchPending(b, result)
      case Approved => DispatchApproved(cfg, b)
      case Executing => DispatchExecuting(cfg, leases, b)
      case AwaitingVerdict => DispatchVerdict(b)
      case _ => Idle
  }

  function Initialize(b: Ctl, soak: bool): Transition
    requires b.Busy?
  {
    var spec := b.ar.spec;
    var cs := Some(b.ar.conds.(submitted := b.ar.conds.submitted.Set(true, b.t)));
    if spec.gatewayDenied then Transition(Unset, Denied, cs, NoCleanup, [RequestDenied])
    else if spec.observe then Transition(Unset, Observed, cs, NoCleanup, [RequestObserved])
    else if spec.cannotExecute || (spec.ref.Some? && soak)
    then Transition(Unset, AwaitingVerdict, cs, NoCleanup, [RequestSubmitted])
    else Transition(Unset, Pending, cs, NoCleanup, [RequestSubmitted])
  }

  function DispatchPending(b: Ctl, result: Action): Ctl
    requires b.Busy?
  {
    var cs := b.ar.conds;
    if cs.evaluated.IsTrue() then
      if !cs.requiresApproval.IsTrue() then Go(b, Acquiring)
      else if b.ar.human.None? then Idle
      else if b.ar.human.value.approve then
        Go(b, Acquiring).(ar := b.ar.(conds := cs.(requiresApproval := Absent)))
      else
        Go(b, Moving(Transition(Pending, Denied, Some(cs.(approved := cs.approved.Set(false, b.t))),
                                NoCleanup, [RequestDenied])))
    else
      var evaluated := cs.(evaluated := cs.evaluated.Set(true, b.t), basis := Some(result));
      match result
      case Deny =>
        Go(b, Moving(Transition(Pending, Denied, Some(evaluated.(approved := evaluated.approved.Set(false, b.t))),
                                NoCleanup, [PolicyEvaluated, RequestDenied])))
      case RequireApproval =>
        var judged := if b.ar.spec.skipHuman
                      then evaluated.(approved := evaluated.approved.Set(true, b.t))
                      else evaluated.(requiresApproval := evaluated.requiresApproval.Set(true, b.t));
        Go(b, Noting(judged, false))
      case _ => Go(b, Noting(evaluated, true))
  }

  function DispatchApproved(cfg: Config, b: Ctl): Ctl
    requires b.Busy?
  {
    if !b.ar.conds.approved.IsTrue() then Idle
    else if ApprovalTimedOut(cfg, b.ar.conds, b.t) then
      Go(b, Releasing(Transition(Approved, Failed, Some(b.ar.conds.(failed := b.ar.conds.failed.Set(true, b.t))),
                                 NoCleanup, [RequestFailed])))
    else Go(b, Renewing)
  }

  function DispatchExecuting(cfg: Config, leases: map<string, Lease>, b: Ctl): Ctl
    requires b.Busy?
  {
    var ln := LeaseName(cfg, b.ar.spec.uri);
    var failed := Some(b.ar.conds.(failed := b.ar.conds.failed.Set(true, b.t)));
    if ln !in leases then Idle
    else if !Holds(cfg, leases, b.n, b.ar.spec) then
      Go(b, Moving(Transition(Executing, Failed, failed, NoCleanup, [LockExpired, RequestFailed])))
    else if LeaseExpired(leases[ln], b.t) then
      Go(b, Moving(Transition(Executing, Failed, failed, DropLease, [HeartbeatTimeout, RequestFailed])))
    else Idle
  }

  function DispatchVerdict(b: Ctl): Ctl
    requires b.Busy?
  {
    if b.ar.verdict.Some? then
      Go(b, Moving(Transition(AwaitingVerdict, Completed, None, NoCleanup, [VerdictSubmitted])))
    else if b.t > b.ar.spec.created + VERDICT_TTL then
      Go(b, Moving(Transition(AwaitingVerdict, Expired, None, NoCleanup, [RequestExpired])))
    else Idle
  }

  function Abort(s: State): State {
    s.(ctl := Idle, crashed := true)
  }

  /** History notes the transition time of the first Approved=True condition that is stored. */
  function NoteApproved(at: Option<int>, cs: Conds): Option<int> {
    if at.None? && cs.approved.IsTrue() then Some(Since(cs)) else at
  }

  /** A status merge patch: phase and conditions change only if the patch carries them. */
  function Patched(r: Request, to: Phase, cs: Option<Conds>): Request {
    r.(phase := to, conds := if cs.Some? then cs.value else r.conds, version := r.version + 1)
  }

  function Moved(e: Entry, tr: Transition, read: Approval): Entry {
    e.(r := Patched(e.r, tr.to, tr.conds), path := e.path + [tr.to],
       approval := if tr.to == Approved then Some(read) else e.approval,
       approvedAt := if tr.conds.Some? then NoteApproved(e.approvedAt, tr.conds.value) else e.approvedAt)
  }

  function Noted(e: Entry, cs: Conds): Entry {
    e.(r := Patched(e.r, e.r.phase, Some(cs)), approvedAt := NoteApproved(e.approvedAt, cs),
       committed := if cs.basis.Some? then e.committed + {cs.basis.value} else e.committed)
  }

  function ReadBy(b: Ctl): Approval
    requires b.Busy?
  {
    Approval(b.seen, b.ar.human, b.ar.conds.basis)
  }

  /** The lease is dealt with after the patch, then the audit records. */
  function AfterMove(b: Ctl, tr: Transition, ar: Request): Ctl
    requires b.Busy?
  {
    b.(pc := if tr.cleanup == NoCleanup then Recording(tr, 0) else Cleaning(tr), ar := ar)
  }

  function CommitMove(s: State, b: Ctl, tr: Transition): (s': State)
    requires b.Busy?
    ensures s'.tasks == s.tasks
  {
    if !Stored(s, b.n) then Abort(s)
    else
      var e := Moved(s.entries[b.n], tr, ReadBy(b));
      Put(s, b.n, e).(ctl := AfterMove(b, tr, e.r))
  }

  function CommitNote(s: State, b: Ctl, cs: Conds, acquire: bool): (s': State)
    requires b.Busy?
    ensures s'.tasks == s.tasks
  {
    if !Stored(s, b.n) then Abort(s)
    else
      var e := Noted(s.entries[b.n], cs);
      Put(s, b.n, e).(ctl := b.(pc := NotingAudit(acquire), ar := e.r))
  }

  function CleanUp(cfg: Config, s: State, b: Ctl, tr: Transition): (s': State)
    requires b.Busy?
    ensures s'.audits == s.audits && s'.tasks == s.tasks && s'.crashed == s.crashed
  {
    var why := GivenUp(b.t, Since(b.ar.conds));
    match tr.cleanup
    case NoCleanup => s
    case ReleaseLock => Released(cfg, s, b.n, b.ar.spec, why)
    case DropLease => RemoveLease(cfg, s, LeaseName(cfg, b.ar.spec.uri), why)
  }

  function Won(b: Ctl): Ctl
    requires b.Busy?
  {
    Go(b, Moving(Transition(Pending, Approved, Some(b.ar.conds.(approved := b.ar.conds.approved.Set(true, b.t))),
                            NoCleanup, [RequestApproved])))
  }

  function GaveUpWaiting(b: Ctl): Ctl
    requires b.Busy?
  {
    Go(b, Moving(Transition(Pending, Denied, Some(b.ar.conds.(approved := b.ar.conds.approved.Set(false, b.t))),
                            NoCleanup, [RequestDenied])))
  }

  function TakeLease(cfg: Config, s: State, b: Ctl): State
    requires b.Busy?
  {
    s.(leases := s.leases[LeaseName(cfg, b.ar.spec.uri) := OwnLease(cfg, b.n, b.ar.spec, b.t)], ctl := Won(b))
  }

  /** Every active holder of the expired lease loses it. */
  function Dispossess(cfg: Config, s: State, ln: string, t: int): State
    requires ln in s.leases
  {
    s.(entries := MarkLost(cfg, s.entries, ln, s.leases[ln],
                           Lapsed(t, s.leases[ln].renewed, s.leases[ln].seconds)))
  }

  /** handleLockAcquisition up to the status patch. */
  function Acquire(cfg: Config, s: State, b: Ctl): (s': State)
    requires b.Busy?
    ensures s'.audits == s.audits && s'.tasks == s.tasks && s'.crashed == s.crashed
    ensures s'.ctl == Won(b) || s'.ctl == GaveUpWaiting(b) || s'.ctl == Idle
  {
    var ln := LeaseName(cfg, b.ar.spec.uri);
    if ln !in s.leases then TakeLease(cfg, s, b)
    else if s.leases[ln].holder == HolderId(b.ar.spec, b.n) then s.(ctl := Won(b))
    else if LeaseExpired(s.leases[ln], b.t) then TakeLease(cfg, Dispossess(cfg, s, ln, b.t), b)
    else if b.ar.spec.created < b.t - LockWait(cfg) then s.(ctl := GaveUpWaiting(b))
    else s.(ctl := Idle)
  }

  function Renew(cfg: Config, s: State, b: Ctl): (s': State)
    requires b.Busy?
    ensures s'.tasks == s.tasks
  {
    var ln := LeaseName(cfg, b.ar.spec.uri);
    if Holds(cfg, s.leases, b.n, b.ar.spec)
    then s.(leases := s.leases[ln := s.leases[ln].(renewed := b.t)], ctl := Idle)
    else s.(ctl := Idle)
  }

  function AfterRecord(b: Ctl, tr: Transition, k: nat): Ctl
    requires b.Busy?
  {
    if k + 1 < |tr.events| then Go(b, Recording(tr, k + 1)) else Idle
  }

  /** The controller's next API call. */
  function Advance(cfg: Config, s: State, b: Ctl): State
    requires b.Busy?
  {
    match b.pc
    case Fetched => s
    case Checked => s
    case Releasing(tr) =>
      Released(cfg, s, b.n, b.ar.spec, GivenUp(b.t, Since(b.ar.conds))).(ctl := Go(b, Moving(tr)))
    case Moving(tr) => CommitMove(s, b, tr)
    case Cleaning(tr) => CleanUp(cfg, s, b, tr).(ctl := Go(b, Recording(tr, 0)))
    case Recording(tr, k) =>
      if k >= |tr.events| then s.(ctl := Idle)
      else CreateAudit(cfg, s, b.n, KeyOf(b.n, tr, tr.events[k])).(ctl := AfterRecord(b, tr, k))
    case Noting(cs, acquire) => CommitNote(s, b, cs, acquire)
    case NotingAudit(acquire) =>
      CreateAudit(cfg, s, b.n, AuditKey(b.n, PolicyEvaluated, Pending, Unset))
        .(ctl := if acquire then Go(b, Acquiring) else Idle)
    case Acquiring => Acquire(cfg, s, b)
    case Renewing => Renew(cfg, s, b)
  }

  /** A failed API call the controller only logs: the policy.evaluated record and the
      deletion of an expired lease. */
  function Tolerate(s: State, b: Ctl): (s': State)
    requires b.Busy?
    ensures s'.entries == s.entries && s'.leases == s.leases && s'.audits == s.audits && s'.crashed == s.crashed
  {
    match b.pc
    case NotingAudit(acquire) => s.(ctl := if acquire then Go(b, Acquiring) else Idle)
    case Recording(tr, k) =>
      if k < |tr.events| && tr.events[k] == PolicyEvaluated then s.(ctl := AfterRecord(b, tr, k)) else s
    case Cleaning(tr) => if tr.cleanup == DropLease then s.(ctl := Go(b, Recording(tr, 0))) else s
    case _ => s
  }

  // ---------- gateway handlers ----------

  function Begin(s: State, id: nat, task: Task): (s': State)
    ensures s'.entries == s.entries && Aside(s, s')
  {
    if id in s.tasks then s else s.(tasks := s.tasks[id := task])
  }

  function SetTask(s: State, id: nat, task: Task): (s': State)
    ensures s'.entries == s.entries && Aside(s, s')
  {
    s.(tasks := s.tasks[id := task])
  }

  /** failAgentRequest: the conditions it will set, by the phase it read. */
  function AbandonConds(p: Phase): seq<Signal> {
    match p
    case Approved => [SigExecuting, SigFailed]
    case Executing => [SigFailed]
    case Pending => [SigFailed]
    case AwaitingVerdict => [SigFailed]
    case _ => []
  }

  predicate InFlight(s: State, id: nat) {
    id in s.tasks && !s.tasks[id].Finished?
  }

  /** Re-read the conditions before the patch (setARCondition, patchAgentRequestCondition). */
  function ReadConds(s: State, id: nat): (s': State)
    ensures s'.entries == s.entries && Aside(s, s')
  {
    if InFlight(s, id) && s.tasks[id].Conditioning? && Stored(s, s.tasks[id].n)
    then SetTask(s, id, s.tasks[id].(snap := Some(s.entries[s.tasks[id].n].r.conds)))
    else s
  }

  function Signaled(e: Entry, snap: Conds, sig: Signal, t: int): Entry {
    e.(r := e.r.(conds := WithSignal(snap, sig, t), version := e.r.version + 1))
  }

  /** Write the snapshot back with one more condition: the whole list is replaced. */
  function WriteConds(s: State, id: nat): (s': State)
    ensures Aside(s, s')
  {
    if InFlight(s, id) && s.tasks[id].Conditioning? && Stored(s, s.tasks[id].n)
       && s.tasks[id].snap.Some? && s.tasks[id].todo != []
    then
      var task := s.tasks[id];
      SetTask(Put(s, task.n, Signaled(s.entries[task.n], task.snap.value, task.todo[0], s.now)),
              id, Conditioning(task.n, task.todo[1..], None))
    else s
  }

  function StartDecision(cfg: Config, s: State, id: nat, n: string, sub: string, approve: bool): (s': State)
    ensures s'.entries == s.entries && Aside(s, s')
  {
    if Stored(s, n) && id !in s.tasks && s.entries[n].r.spec.agent != sub && s.entries[n].r.phase == Pending
    then SetTask(s, id, Deciding(n, Decision(approve, sub)))
           .(tokens := if approve && cfg.jwtConfigured then s.tokens + {n} else s.tokens)
    else s
  }

  function HumanDecided(e: Entry, d: Decision): Entry {
    e.(r := e.r.(human := Some(d), version := e.r.version + 1))
  }

  function WriteDecision(s: State, id: nat): (s': State)
    ensures Aside(s, s')
  {
    if InFlight(s, id) && s.tasks[id].Deciding? && Stored(s, s.tasks[id].n)
    then
      var task := s.tasks[id];
      SetTask(Put(s, task.n, HumanDecided(s.entries[task.n], task.decision)), id, Finished)
    else s
  }

  /** The request body checks of the verdict handler. */
  predicate ValidVerdict(v: Verdict) {
    || v.reasonCode in {"wrong_diagnosis", "bad_timing", "scope_too_broad", "precautionary", "policy_block"}
    || (v.reasonCode == "" && v.grade == Correct)
  }

  function StartVerdict(s: State, id: nat, n: string, v: Verdict): (s': State)
    ensures s'.entries == s.entries && Aside(s, s')
  {
    if Stored(s, n) && ValidVerdict(v) && s.entries[n].r.phase == AwaitingVerdict && s.entries[n].r.verdict.None?
    then Begin(s, id, Grading(n, v.(at := s.now), s.entries[n].r))
    else s
  }

  function GradedEntry(e: Entry, v: Verdict): Entry {
    e.(r := e.r.(verdict := Some(v), version := e.r.version + 1),
       verdicts := e.verdicts + [Graded(v, e.r.phase)])
  }

  /** The optimistic lock: the patch lands only on the version that was read. */
  function WriteVerdict(s: State, id: nat): (s': State)
    ensures Aside(s, s')
  {
    if InFlight(s, id) && s.tasks[id].Grading? && Stored(s, s.tasks[id].n)
       && s.entries[s.tasks[id].n].r.version == s.tasks[id].read.version
    then
      var task := s.tasks[id];
      SetTask(Put(s, task.n, GradedEntry(s.entries[task.n], task.verdict)), id, Finished)
    else s
  }

  function Touched(e: Entry): Entry {
    e.(r := e.r.(version := e.r.version + 1))
  }

  /** PUT result: accepted while Executing or Completed. */
  function PutResult(s: State, n: string): (s': State)
    ensures Aside(s, s')
  {
    if Stored(s, n) && (s.entries[n].r.phase == Executing || s.entries[n].r.phase == Completed)
    then Put(s, n, Touched(s.entries[n])) else s
  }

  // ---------- deletion ----------

  function DeletedEntry(e: Entry, now: int, collected: bool): Entry {
    e.(live := false, deleted := Some(Deletion(e.r.phase, now - e.r.spec.created, collected)))
  }

  function Delete(s: State, n: string, collected: bool): (s': State)
    ensures Aside(s, s')
  {
    if Stored(s, n) then Put(s, n, DeletedEntry(s.entries[n], s.now, collected)) else s
  }

  /** One AuditRecord goes. */
  function Sweep(s: State, a: string): (s': State)
    ensures s'.leases == s.leases && s'.ctl == s.ctl && s'.crashed == s.crashed
  {
    if a in s.audits && s.audits[a].request in s.entries then
      var n := s.audits[a].request;
      Put(s, n, s.entries[n].(swept := true)).(audits := s.audits - {a})
    else s
  }

  /** The collector judges by its own, possibly old, copy of the request and by the clock at that moment. */
  function Judge(cfg: Config, s: State, id: nat): (s': State)
    ensures s'.entries == s.entries && Aside(s, s')
  {
    if InFlight(s, id) && s.tasks[id].Collecting? && Terminal(s.tasks[id].read.phase)
       && cfg.hardTTL != 0 && !cfg.dryRun && s.now - s.tasks[id].read.spec.created >= cfg.hardTTL
    then SetTask(s, id, s.tasks[id].(judged := Some(s.now)))
    else s
  }

  /** It has been judged; however long the rate limiter and the audit pages take, nothing is looked at again. */
  predicate Collectable(s: State, id: nat) {
    InFlight(s, id) && s.tasks[id].Collecting? && s.tasks[id].judged.Some?
  }

  /** It first deletes the request's AuditRecords one by one, as far as that succeeds. */
  function CollectAudit(s: State, id: nat, a: string): (s': State)
    ensures s'.leases == s.leases && s'.ctl == s.ctl && s'.crashed == s.crashed
  {
    if Collectable(s, id) && a in s.audits && s.audits[a].request == s.tasks[id].n then Sweep(s, a) else s
  }

  /** Then the request itself. */
  function Collect(s: State, id: nat): (s': State)
    ensures Aside(s, s')
  {
    if Collectable(s, id) then Delete(s, s.tasks[id].n, true) else s
  }

  /** The API server's own garbage collection of the AuditRecords of a deleted request. */
  function DropOrphan(s: State, a: string): (s': State)
    ensures s'.leases == s.leases && s'.ctl == s.ctl && s'.crashed == s.crashed
  {
    if a in s.audits && s.audits[a].request in s.entries && !s.entries[s.audits[a].request].live then Sweep(s, a) else s
  }

  // ---------- steps and runs ----------

  datatype Step =
    | Tick(d: nat)
    | SubmitHttp(n: string, body: Body, gate: GateInput, permitted: bool)
    | SubmitMcp(n: string, body: Body, mcpGate: Option<GateInput>)
    | SubmitDirect(n: string, spec: Spec)
    | StartExecuting(id: nat, n: string)
    | StartCompleted(id: nat, n: string)
    | StartMcpComplete(id: nat, n: string)
    | StartAbandon(id: nat, n: string)
    | StepReadConds(id: nat)
    | StepWriteConds(id: nat)
    | DropTask(id: nat)
    | StepStartDecision(id: nat, n: string, sub: string, approve: bool)
    | StepWriteDecision(id: nat)
    | AwaitApproval(n: string)
    | StepStartVerdict(id: nat, n: string, verdict: Verdict)
    | StepWriteVerdict(id: nat)
    | StepPutResult(n: string)
    | StartCollect(id: nat, n: string)
    | StepJudge(id: nat)
    | StepCollectAudit(id: nat, a: string)
    | StepCollect(id: nat)
    | StepDropOrphan(a: string)
    | DedupDelete(n: string)
    | Fetch(n: string)
    | StepCheckResource(found: Option<int>)
    | StepDispatch(result: Action, soak: bool)
    | StepAdvance
    | StepTolerate
    | Crash

  /** Fetch the request; settled phases end the reconcile at once. */
  function StepFetch(s: State, n: string): (s': State)
    ensures s'.entries == s.entries && s'.leases == s.leases && s'.audits == s.audits && s'.crashed == s.crashed
  {
    if s.ctl.Idle? && Stored(s, n) && !Settled(s.entries[n].r.phase)
    then s.(ctl := Busy(n, s.now, s.entries[n].r, None, Fetched)) else s
  }

  /** This reconcile evaluates the policies. */
  predicate Evaluates(b: Ctl) {
    && b.Busy? && b.ar.phase == Pending && !b.ar.conds.evaluated.IsTrue()
    && !b.ar.conds.completed.IsTrue() && !b.ar.conds.failed.IsTrue()
  }

  /** The decision step. */
  function Decided(cfg: Config, s: State, b: Ctl, result: Action, soak: bool): (s': State)
    requires b.Busy?
    ensures s'.entries == s.entries && s'.leases == s.leases && s'.audits == s.audits && s'.crashed == s.crashed
  {
    s.(ctl := Dispatch(cfg, s.leases, b, result, soak))
  }

  function PhaseOf(s: State, n: string): Option<Phase> {
    if Stored(s, n) then Some(s.entries[n].r.phase) else None
  }

  predicate Submits(a: Step) {
    a.SubmitHttp? || a.SubmitMcp? || a.SubmitDirect?
  }

  predicate Reports(a: Step) {
    a.StartExecuting? || a.StartCompleted? || a.StartMcpComplete? || a.StartAbandon? || a.StepReadConds? || a.StepWriteConds?
    || a.DropTask?
  }

  predicate Reviews(a: Step) {
    a.StepStartDecision? || a.StepWriteDecision? || a.AwaitApproval? || a.StepStartVerdict? || a.StepWriteVerdict? || a.StepPutResult?
  }

  predicate Collects(a: Step) {
    a.StartCollect? || a.StepJudge? || a.StepCollectAudit? || a.StepCollect? || a.StepDropOrphan? || a.DedupDelete?
  }

  function DoSubmit(s: State, a: Step): State
    requires Submits(a)
  {
    match a
    case SubmitHttp(n, body, gate, permitted) =>
      var spec := AdmitHttp(body, gate, permitted, s.now);
      if spec.None? then s else Submitted(s, n, spec.value, Http(gate, permitted))
    case SubmitMcp(n, body, gate) => Submitted(s, n, AdmitMcp(body, gate, s.now), Mcp(gate))
    case SubmitDirect(n, spec) => Submitted(s, n, spec.(created := s.now), Direct)
  }

  /** The agent's reports: each handler checks, reads the conditions and writes them back. */
  function DoReport(s: State, a: Step): State
    requires Reports(a)
  {
    match a
    case StartExecuting(id, n) =>
      if PhaseOf(s, n) == Some(Approved) then Begin(s, id, Conditioning(n, [SigExecuting], None)) else s
    case StartCompleted(id, n) =>
      if PhaseOf(s, n) == Some(Executing) then Begin(s, id, Conditioning(n, [SigCompleted], None)) else s
    case StartMcpComplete(id, n) =>
      if n in s.tokens then Begin(s, id, Conditioning(n, [SigExecuting, SigCompleted], None)) else s
    case StartAbandon(id, n) =>
      if Stored(s, n) then Begin(s, id, Conditioning(n, AbandonConds(s.entries[n].r.phase), None)) else s
    case StepReadConds(id) => ReadConds(s, id)
    case StepWriteConds(id) => WriteConds(s, id)
    case DropTask(id) => SetTask(s, id, Finished)
  }

  /** Human decisions, tokens, verdicts and results. */
  function DoReview(cfg: Config, s: State, a: Step): State
    requires Reviews(a)
  {
    match a
    case StepStartDecision(id, n, sub, approve) => StartDecision(cfg, s, id, n, sub, approve)
    case StepWriteDecision(id) => WriteDecision(s, id)
    case AwaitApproval(n) =>
      if PhaseOf(s, n) == Some(Approved) && cfg.jwtConfigured then s.(tokens := s.tokens + {n}) else s
    case StepStartVerdict(id, n, verdict) => StartVerdict(s, id, n, verdict)
    case StepWriteVerdict(id) => WriteVerdict(s, id)
    case StepPutResult(n) => PutResult(s, n)
  }

  function DoCollect(cfg: Config, s: State, a: Step): State
    requires Collects(a)
  {
    match a
    case StartCollect(id, n) => if Stored(s, n) then Begin(s, id, Collecting(n, s.entries[n].r, None)) else s
    case StepJudge(id) => Judge(cfg, s, id)
    case StepCollectAudit(id, a) => CollectAudit(s, id, a)
    case StepCollect(id) => Collect(s, id)
    case StepDropOrphan(a) => DropOrphan(s, a)
    case DedupDelete(n) => if Stored(s, n) && Terminal(s.entries[n].r.phase) then Delete(s, n, false) else s
  }

  /** The clock and the controller. */
  function DoControl(cfg: Config, s: State, a: Step): State {
    match a
    case Tick(d) => s.(now := s.now + d)
    case Fetch(n) => StepFetch(s, n)
    case StepCheckResource(found) =>
      if s.ctl.Busy? && s.ctl.pc == Fetched then s.(ctl := CheckResource(s.ctl, found)) else s
    case StepDispatch(result, soak) =>
      if s.ctl.Busy? && s.ctl.pc == Checked then Decided(cfg, s, s.ctl, result, soak) else s
    case StepAdvance => if s.ctl.Busy? then Advance(cfg, s, s.ctl) else s
    case StepTolerate => if s.ctl.Busy? then Tolerate(s, s.ctl) else s
    case Crash => if s.ctl.Busy? then Abort(s) else s
    case _ => s
  }

  function Do(cfg: Config, s: State, a: Step): State {
    if Submits(a) then DoSubmit(s, a)
    else if Reports(a) then DoReport(s, a)
    else if Reviews(a) then DoReview(cfg, s, a)
    else if Collects(a) then DoCollect(cfg, s, a)
    else DoControl(cfg, s, a)
  }

  /** The state after a run from the empty cluster at time `t0`. */
  function Run(cfg: Config, t0: int, steps: seq<Step>): State {
    if steps == [] then Init(t0)
    else Do(cfg, Run(cfg, t0, steps[..|steps| - 1]), steps[|steps| - 1])
  }

  lemma RunOn(cfg: Config, t0: int, steps: seq<Step>, a: Step)
    ensures Run(cfg, t0, steps + [a]) == Do(cfg, Run(cfg, t0, steps), a)
  {
    hide Do;
    assert (steps + [a])[..|steps|] == steps;
  }

  lemma RunLast(cfg: Config, t0: int, steps: seq<Step>)
    requires steps != []
    ensures Run(cfg, t0, steps) == Do(cfg, Run(cfg, t0, steps[..|steps| - 1]), steps[|steps| - 1])
  {
    hide Do;
  }
}

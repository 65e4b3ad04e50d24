/** What the lifecycle promises in every reachable state: corollaries of the invariant, for any
    configuration, any starting time and any sequence of steps. */
module Guarantees {
  import opened Api
  import opened TrustGate
  import opened Lifecycle
  import opened Phases
  import opened Invariant
  import opened Entries
  import opened Preservation
  import opened Decisions
  import opened Locks
  import opened Steps
  import opened History

  /** What is known of one request after a run. */
  lemma AfterRun(cfg: Config, t0: int, steps: seq<Step>, n: string)
    requires n in Run(cfg, t0, steps).entries
    ensures var s := Run(cfg, t0, steps);
            GoodName(n) && EntryInv(cfg, s.entries[n]) && LeaseInv(cfg, s.leases, n, s.entries[n])
  {
    hide Run, Inv, EntryInv, LeaseInv;
    RunKeeps(cfg, t0, steps);
    At(cfg, Run(cfg, t0, steps), n);
  }

  // ---------- OpsLock mutual exclusion ----------

  /** Two requests that are Approved or Executing under one lease name: at least one of them
      has lost its lease, after the lease ran out or the approval timed out. */
  lemma MutualExclusion(cfg: Config, t0: int, steps: seq<Step>, m: string, n: string)
    requires var s := Run(cfg, t0, steps);
             && m in s.entries && n in s.entries && m != n
             && s.entries[m].r.phase in {Approved, Executing} && s.entries[n].r.phase in {Approved, Executing}
             && LeaseName(cfg, s.entries[m].r.spec.uri) == LeaseName(cfg, s.entries[n].r.spec.uri)
    ensures var s := Run(cfg, t0, steps);
            || (s.entries[m].loss.Some? && Justified(cfg, s.entries[m].loss.value))
            || (s.entries[n].loss.Some? && Justified(cfg, s.entries[n].loss.value))
  {
    hide Run, LeaseName;
    var s := Run(cfg, t0, steps);
    AfterRun(cfg, t0, steps, m);
    AfterRun(cfg, t0, steps, n);
    if s.entries[m].loss.None? && s.entries[n].loss.None? {
      HolderIdInjective(s.entries[m].r.spec, m, s.entries[n].r.spec, n);
    }
  }

  /** An active request holds its lease if and only if it has not lost it. */
  lemma HoldsUnlessLost(cfg: Config, t0: int, steps: seq<Step>, n: string)
    requires var s := Run(cfg, t0, steps); n in s.entries && s.entries[n].r.phase in {Approved, Executing}
    ensures var s := Run(cfg, t0, steps);
            Holds(cfg, s.leases, n, s.entries[n].r.spec) <==> s.entries[n].loss.None?
  {
    hide Run, EntryInv;
    AfterRun(cfg, t0, steps, n);
  }

  // ---------- approval provenance ----------

  /** A request that was ever Approved rests on one evaluation: the one its approving reconcile read the
      stored outcome of. Some reconcile made that evaluation at step `k` and stored it at step `j`; its
      result was not Deny; if it asked for approval, a human other than the agent had approved or the trust
      gate had waived that (for a request that came in through the gateway: the first listing of the level
      that counts lets the agent execute without a human), whatever other evaluations were made and lost; and the
      GovernedResource was at the admitted generation. */
  lemma ApprovalProvenance(cfg: Config, t0: int, steps: seq<Step>, n: string)
    requires n in Run(cfg, t0, steps).entries && Approved in Run(cfg, t0, steps).entries[n].path
    ensures var e := Run(cfg, t0, steps).entries[n];
            && e.approval.Some? && e.approval.value.basis.Some?
            && (e.r.spec.ref.Some? ==> e.approval.value.seen == Some(e.r.spec.ref.value.generation))
            && (e.approval.value.human.Some? ==> e.approval.value.human.value.reviewer != e.r.spec.agent)
            && var result := e.approval.value.basis.value;
               && result != Deny
               && (result == RequireApproval ==> WaivedByGate(e) || SaysApproved(e.approval.value.human))
               && exists k, j :: 0 <= k < j < |steps| && CommittedAt(cfg, t0, steps, k, j, n, result)
  {
    hide Run, CommittedAt;
    AfterRun(cfg, t0, steps, n);
    var e := Run(cfg, t0, steps).entries[n];
    hide GateWaives, GateRefuses, TooLow;
    assert ApprovalSound(e) && OriginSound(e);
    hide EntryInv, LeaseInv;
    EvaluationHappened(cfg, t0, steps, n, e.approval.value.basis.value);
  }

  /** A request that was ever Approved has an approval time on record; while it is Approved and the agent
      has reported nothing, its list says Approved=True since that very time, whatever older lists were put
      back meanwhile. So the controller will see to it: renew the lock, and give it up in time. */
  lemma ApprovedMarked(cfg: Config, t0: int, steps: seq<Step>, n: string)
    requires n in Run(cfg, t0, steps).entries && Approved in Run(cfg, t0, steps).entries[n].path
    ensures var e := Run(cfg, t0, steps).entries[n];
            && e.approvedAt.Some?
            && (e.r.phase == Approved && !e.r.conds.executing.IsTrue() && !e.r.conds.completed.IsTrue() && !e.r.conds.failed.IsTrue() ==>
                  e.r.conds.approved == Cond(true, e.approvedAt.value))
  {
    hide Run, LeaseInv, OriginSound, PathInv, ApprovalSound, BarredSound, LossSound, DeletionSound, Sourced;
    AfterRun(cfg, t0, steps, n);
  }

  // ---------- trust gate, end to end ----------

  /** A govern-mode request admitted over HTTP against a resource whose trust gate does not grant
      execution is never Pending, Approved or Executing, never holds a lease, never has a token
      minted for it, and is Completed only with a verdict. */
  lemma TrustGateEndToEnd(cfg: Config, t0: int, steps: seq<Step>, n: string)
    requires n in Run(cfg, t0, steps).entries
    requires var e := Run(cfg, t0, steps).entries[n];
             e.origin.Http? && e.r.spec.ref.Some? && GateRefuses(e.origin.gate)
    ensures var s, e := Run(cfg, t0, steps), Run(cfg, t0, steps).entries[n];
            && Pending !in e.path && Approved !in e.path && Executing !in e.path
            && !Holds(cfg, s.leases, n, e.r.spec) && n !in s.tokens
            && (e.r.phase == Completed ==> e.r.verdict.Some?)
  {
    hide Run, EntriesInv, LeasesInv, TasksInv, WorkerInv, GateRefuses, GateWaives, TooLow;
    AfterRun(cfg, t0, steps, n);
    RefusedBarred(Run(cfg, t0, steps).entries[n]);
    RunKeeps(cfg, t0, steps);
  }

  // ---------- phases ----------

  /** The phase a request had after any part of a run is on its path, the path is a walk of at most
      four strictly descending phase changes, and a settled phase is its last. */
  lemma PhaseHistory(cfg: Config, t0: int, steps: seq<Step>, k: nat, n: string)
    requires k <= |steps| && n in Run(cfg, t0, steps[..k]).entries
    ensures n in Run(cfg, t0, steps).entries
    ensures var p, e := Run(cfg, t0, steps[..k]).entries[n].r.phase, Run(cfg, t0, steps).entries[n];
            && p in e.path && PathOk(e.path) && |e.path| <= 5
            && (forall i, j :: 0 <= i < j < |e.path| && j == i + 1 ==> ComesFrom(e.path[i], e.path[j]))
            && (p in {Completed, Failed, Denied, Expired, Observed} ==> e.r.phase == p)
  {
    hide Run;
    RunFollows(cfg, t0, steps, k, n);
    AfterRun(cfg, t0, steps[..k], n);
    AfterRun(cfg, t0, steps, n);
    var e, e' := Run(cfg, t0, steps[..k]).entries[n], Run(cfg, t0, steps).entries[n];
    assert PathInv(e) && PathInv(e') && e.path <= e'.path;
    hide EntryInv, LeaseInv, Follows;
    PathBounded(e'.path);
    assert e'.path[|e.path| - 1] == e.r.phase;
    forall i, j | 0 <= i < j < |e'.path| && j == i + 1 ensures ComesFrom(e'.path[i], e'.path[j]) {
      EdgeMeans(e'.path[i], e'.path[j]);
    }
  }

  // ---------- verdicts ----------

  /** At most one verdict is ever stored, while AwaitingVerdict, and it is the one that is stored. */
  lemma VerdictWrittenOnce(cfg: Config, t0: int, steps: seq<Step>, n: string)
    requires n in Run(cfg, t0, steps).entries
    ensures var e := Run(cfg, t0, steps).entries[n];
            && |e.verdicts| <= 1
            && (e.r.verdict.Some? <==> |e.verdicts| == 1)
            && (e.r.verdict.Some? ==> e.verdicts[0] == Graded(e.r.verdict.value, AwaitingVerdict))
  {
    hide Run, LeaseInv;
    AfterRun(cfg, t0, steps, n);
  }

  // ---------- deletion ----------

  /** Every deleted request was and stays in a terminal phase; the collector deletes only at an
      age of at least the hard TTL, and nothing at all in dry-run mode or without a TTL. */
  lemma DeletionSafe(cfg: Config, t0: int, steps: seq<Step>, n: string)
    requires n in Run(cfg, t0, steps).entries && !Run(cfg, t0, steps).entries[n].live
    ensures var e := Run(cfg, t0, steps).entries[n];
            && e.r.phase in {Completed, Failed, Denied, Expired} && e.deleted.Some? && e.deleted.value.phase == e.r.phase
            && (e.deleted.value.collected ==> e.deleted.value.age >= cfg.hardTTL && cfg.hardTTL != 0 && !cfg.dryRun)
  {
    hide Run, LeaseInv;
    AfterRun(cfg, t0, steps, n);
  }

  // ---------- lock names ----------

  /** A target's lease is named after the digest of its URI: two targets share a lease exactly if their
      digests are the same, whenever digests fit into a name, as those of SHA-256 do. */
  lemma LeasePerTarget(cfg: Config, a: string, b: string)
    requires |cfg.sha(a)| <= 244 && |cfg.sha(b)| <= 244
    ensures LeaseName(cfg, a) == LeaseName(cfg, b) <==> cfg.sha(a) == cfg.sha(b)
    ensures LeaseName(cfg, a) == "aip-lock-" + cfg.sha(a)
  {
    var x, y := "aip-lock-" + cfg.sha(a), "aip-lock-" + cfg.sha(b);
    assert x[9..] == cfg.sha(a) && y[9..] == cfg.sha(b);
  }

  // ---------- lock time ----------

  lemma SecondsBounded(cfg: Config)
    ensures LeaseSeconds(cfg) * SECOND <= OpsLockDuration(cfg)
  {
    var d := OpsLockDuration(cfg) / SECOND;
    assert ToInt32(d) <= d;
  }

  /** A lease runs for the configured duration, five minutes when none is configured, cut to whole seconds;
      exactly from 2^31 seconds on it does not, because the count of seconds is then cut to 32 bits. */
  lemma SecondsExact(cfg: Config)
    ensures var d := if cfg.opsLockDuration <= 0 then 300_000_000_000 else cfg.opsLockDuration;
            && LeaseSeconds(cfg) * 1_000_000_000 <= d
            && (LeaseSeconds(cfg) * 1_000_000_000 > d - 1_000_000_000 <==> d < 2_147_483_648 * 1_000_000_000)
  {
    var d := OpsLockDuration(cfg) / SECOND;
    if d < 0x8000_0000 { assert ToInt32(d) == d; } else { assert ToInt32(d) <= d - 0x1_0000_0000; }
  }

  /** The holder's renew time is at most the later of its acquisition and the end of the window its first
      approval opened, however often that approval was noted, lost to another writer and noted again; so
      the lease expires within one lock duration of that. */
  lemma LockTimeBound(cfg: Config, t0: int, steps: seq<Step>, n: string)
    requires var s := Run(cfg, t0, steps); n in s.entries && Holds(cfg, s.leases, n, s.entries[n].r.spec)
    ensures var s, e := Run(cfg, t0, steps), Run(cfg, t0, steps).entries[n];
            var l := s.leases[LeaseName(cfg, e.r.spec.uri)];
            var window, lock := if cfg.approvedTimeout > 0 then cfg.approvedTimeout else 300_000_000_000,
                                if cfg.opsLockDuration > 0 then cfg.opsLockDuration else 300_000_000_000;
            var bound := if e.approvedAt.Some? then Max(l.acquired, e.approvedAt.value + window) else l.acquired;
            && l.renewed <= bound
            && forall t :: t > bound + lock ==> LeaseExpired(l, t) && t > l.renewed + l.seconds * 1_000_000_000
  {
    hide Run, EntryInv, LeaseSeconds, LeaseName, HolderId;
    AfterRun(cfg, t0, steps, n);
    SecondsBounded(cfg);
  }

  /** An Approved=True list stored at any time carries a transition time no earlier than the first
      approval, so the bound also holds in terms of whatever the stored condition says. */
  lemma LockTimeBoundStored(cfg: Config, t0: int, steps: seq<Step>, n: string)
    requires var s := Run(cfg, t0, steps); n in s.entries && Holds(cfg, s.leases, n, s.entries[n].r.spec)
    requires Run(cfg, t0, steps).entries[n].r.conds.approved.IsTrue()
    ensures var s, e := Run(cfg, t0, steps), Run(cfg, t0, steps).entries[n];
            var l := s.leases[LeaseName(cfg, e.r.spec.uri)];
            l.renewed <= Max(l.acquired, e.r.conds.approved.since + if cfg.approvedTimeout > 0 then cfg.approvedTimeout else 300_000_000_000)
  {
    hide Run, LeaseName, HolderId, LeaseExpired;
    LockTimeBound(cfg, t0, steps, n);
    AfterRun(cfg, t0, steps, n);
    hide OriginSound, PathInv, ApprovalSound, BarredSound, LossSound, DeletionSound, LeaseInv, Sourced;
  }

  /** Only the controller touches leases. */
  lemma OnlyControllerLeases(cfg: Config, s: State, a: Step)
    requires a != StepAdvance
    ensures Do(cfg, s, a).leases == s.leases
  {
    hide DoSubmit, DoReport, DoReview, DoCollect, DoControl;
    if Submits(a) { SubmitAside(s, a); }
    else if Reports(a) { ReportAside(s, a); }
    else if Reviews(a) { ReviewAside(cfg, s, a); }
    else if Collects(a) { CollectAside(cfg, s, a); }
    else { ControlLeases(cfg, s, a); }
  }

  lemma ControlLeases(cfg: Config, s: State, a: Step)
    requires a != StepAdvance
    ensures DoControl(cfg, s, a).leases == s.leases
  {
    hide StepFetch, Decided, Tolerate, CheckResource, Advance;
  }

  /** While a request is Executing its lease never moves: after any step it is the same lease,
      or the request no longer holds it. */
  lemma FrozenWhileExecuting(cfg: Config, s: State, a: Step, n: string)
    requires Inv(cfg, s) && n in s.entries && s.entries[n].r.phase == Executing
    requires Holds(cfg, s.leases, n, s.entries[n].r.spec) && Holds(cfg, Do(cfg, s, a).leases, n, s.entries[n].r.spec)
    ensures var ln := LeaseName(cfg, s.entries[n].r.spec.uri); Do(cfg, s, a).leases[ln] == s.leases[ln]
  {
    hide Inv, Do, Advance, LeaseName, HolderId;
    if a != StepAdvance {
      OnlyControllerLeases(cfg, s, a);
    } else {
      ControlIs(cfg, s, StepAdvance);
      if s.ctl.Busy? { FrozenAdvance(cfg, s, n); }
    }
  }

  lemma FrozenAdvance(cfg: Config, s: State, n: string)
    requires Inv(cfg, s) && s.ctl.Busy? && n in s.entries && s.entries[n].r.phase == Executing
    requires Holds(cfg, s.leases, n, s.entries[n].r.spec)
    requires Holds(cfg, Advance(cfg, s, s.ctl).leases, n, s.entries[n].r.spec)
    ensures var ln := LeaseName(cfg, s.entries[n].r.spec.uri); Advance(cfg, s, s.ctl).leases[ln] == s.leases[ln]
  {
    var b := s.ctl;
    hide Inv, CtlInv, EntryInv, LeaseInv, LeaseName, HolderId, Advance, PathInv, BarredSound, ApprovedTimeout;
    AtCtl(cfg, s);
    At(cfg, s, n);
    WorkerFacts(cfg, s.leases, s.entries[b.n], b, s.now);
    if b.pc == Renewing || b.pc == Acquiring {
      TouchesOwn(cfg, s, b);
      if HolderId(b.ar.spec, b.n) == HolderId(s.entries[n].r.spec, n) {
        HolderIdInjective(b.ar.spec, b.n, s.entries[n].r.spec, n);
      }
    } else {
      OnlyRemoves(cfg, s, b);
    }
  }

  lemma OnlyRemoves(cfg: Config, s: State, b: Ctl)
    requires b.Busy? && b.pc != Renewing && b.pc != Acquiring
    ensures forall ln :: ln in Advance(cfg, s, b).leases ==> ln in s.leases && Advance(cfg, s, b).leases[ln] == s.leases[ln]
  {
    hide MarkLost, LeaseName, HolderId, Since, AuditName, KeyOf, AfterRecord, Go, Moved, Noted;
  }

  lemma TouchesOwn(cfg: Config, s: State, b: Ctl)
    requires b.Busy? && (b.pc == Renewing || b.pc == Acquiring)
    ensures forall ln :: ln in Advance(cfg, s, b).leases ==>
              || (ln in s.leases && Advance(cfg, s, b).leases[ln] == s.leases[ln])
              || Advance(cfg, s, b).leases[ln].holder == HolderId(b.ar.spec, b.n)
  {
    hide MarkLost, LeaseName, HolderId, Won, GaveUpWaiting, LockWait;
  }

  /** Over a whole run: at two points where the request is Executing and still the holder, it
      holds the very same lease. */
  lemma {:induction false} LeaseFrozen(cfg: Config, t0: int, steps: seq<Step>, k: nat, n: string)
    requires k <= |steps| && n in Run(cfg, t0, steps[..k]).entries && n in Run(cfg, t0, steps).entries
    requires Run(cfg, t0, steps[..k]).entries[n].r.phase == Executing
    requires Run(cfg, t0, steps).entries[n].r.phase == Executing
    requires Holds(cfg, Run(cfg, t0, steps).leases, n, Run(cfg, t0, steps).entries[n].r.spec)
    ensures Holds(cfg, Run(cfg, t0, steps[..k]).leases, n, Run(cfg, t0, steps).entries[n].r.spec)
    ensures var ln := LeaseName(cfg, Run(cfg, t0, steps).entries[n].r.spec.uri);
            Run(cfg, t0, steps[..k]).leases[ln] == Run(cfg, t0, steps).leases[ln]
  {
    if k == |steps| {
      hide Run, LeaseName, HolderId;
      assert steps[..k] == steps;
    } else {
      hide Run, Inv, Do, LeaseName, HolderId;
      var last := |steps| - 1;
      assert steps[..last][..k] == steps[..k];
      RunLast(cfg, t0, steps);
      StillExecuting(cfg, t0, steps, k, n);
      LeaseFrozen(cfg, t0, steps[..last], k, n);
      RunKeeps(cfg, t0, steps[..last]);
      FrozenWhileExecuting(cfg, Run(cfg, t0, steps[..last]), steps[last], n);
    }
  }

  /** Executing at two points of a run and the holder at the later one: so one step before it too. */
  lemma StillExecuting(cfg: Config, t0: int, steps: seq<Step>, k: nat, n: string)
    requires k < |steps| && n in Run(cfg, t0, steps[..k]).entries && n in Run(cfg, t0, steps).entries
    requires Run(cfg, t0, steps[..k]).entries[n].r.phase == Executing
    requires Run(cfg, t0, steps).entries[n].r.phase == Executing
    requires Holds(cfg, Run(cfg, t0, steps).leases, n, Run(cfg, t0, steps).entries[n].r.spec)
    ensures var s := Run(cfg, t0, steps[..|steps| - 1]);
            && n in s.entries && s.entries[n].r.phase == Executing
            && s.entries[n].r.spec == Run(cfg, t0, steps).entries[n].r.spec
            && Holds(cfg, s.leases, n, s.entries[n].r.spec)
  {
    hide Run, LeaseName, HolderId, EntryInv, LeaseInv, Follows, PathInv, Holds;
    var last := |steps| - 1;
    assert steps[..last][..k] == steps[..k];
    RunFollows(cfg, t0, steps[..last], k, n);
    RunFollows(cfg, t0, steps, last, n);
    PathAfterRun(cfg, t0, steps[..k], n);
    PathAfterRun(cfg, t0, steps[..last], n);
    PathAfterRun(cfg, t0, steps, n);
    Between(Run(cfg, t0, steps[..k]).entries[n], Run(cfg, t0, steps[..last]).entries[n], Run(cfg, t0, steps).entries[n]);
    HoldsUnlessLost(cfg, t0, steps, n);
    HoldsUnlessLost(cfg, t0, steps[..last], n);
  }

  lemma PathAfterRun(cfg: Config, t0: int, steps: seq<Step>, n: string)
    requires n in Run(cfg, t0, steps).entries
    ensures PathInv(Run(cfg, t0, steps).entries[n])
  {
    hide Run, LeaseInv, PathInv;
    AfterRun(cfg, t0, steps, n);
  }

  /** A phase a request is in twice it never left. */
  lemma Between(a: Entry, b: Entry, c: Entry)
    requires Follows(a, b) && Follows(b, c) && PathInv(a) && PathInv(b) && PathInv(c) && a.r.phase == c.r.phase
    ensures b.r.phase == c.r.phase && b.r.spec == c.r.spec && (c.loss.None? ==> b.loss.None?)
  {
    assert a.path <= b.path && b.path <= c.path && c.path[|a.path| - 1] == c.r.phase;
    PathBounded(c.path);
  }

  // ---------- losses ----------

  /** In this state the controller's next call takes the lease of active request `n` away: another
      request takes over the expired lease, or the approval of `n` has timed out. */
  predicate LosesNow(cfg: Config, s: State, n: string, why: Loss) {
    && s.ctl.Busy? && n in s.entries && Active(s.entries[n].r.phase)
    && Holds(cfg, s.leases, n, s.entries[n].r.spec)
    && var l := s.leases[LeaseName(cfg, s.entries[n].r.spec.uri)];
       || (why == Lapsed(s.ctl.t, l.renewed, l.seconds) && s.ctl.t > l.renewed + l.seconds * 1_000_000_000
           && s.ctl.pc == Acquiring && s.ctl.n != n)
       || (&& s.ctl.ar.conds.approved.Cond? && s.ctl.ar.conds.approved.status
           && why == GivenUp(s.ctl.t, s.ctl.ar.conds.approved.since)
           && s.ctl.t > s.ctl.ar.conds.approved.since + (if cfg.approvedTimeout > 0 then cfg.approvedTimeout else 300_000_000_000)
           && s.ctl.pc.Releasing? && s.ctl.n == n)
  }

  lemma ReleaseLoses(cfg: Config, s: State, n: string, why: Loss)
    requires Inv(cfg, s) && s.ctl.Busy? && s.ctl.pc.Releasing? && n in s.entries
    requires n in Advance(cfg, s, s.ctl).entries && Advance(cfg, s, s.ctl).entries[n].loss == Some(why)
    requires s.entries[n].loss != Some(why)
    ensures LosesNow(cfg, s, n, why)
  {
    var b := s.ctl;
    hide Inv, EntryInv, LeaseInv, LeaseName, HolderId;
    AtCtl(cfg, s);
    At(cfg, s, n);
    assert ApprovalTimedOut(cfg, b.ar.conds, b.t) && b.ar.spec == s.entries[b.n].r.spec;
    hide CtlInv;
    HolderIdInjective(b.ar.spec, b.n, s.entries[n].r.spec, n);
  }

  lemma TakeoverLoses(cfg: Config, s: State, n: string, why: Loss)
    requires Inv(cfg, s) && s.ctl.Busy? && s.ctl.pc == Acquiring && n in s.entries
    requires n in Acquire(cfg, s, s.ctl).entries && Acquire(cfg, s, s.ctl).entries[n].loss == Some(why)
    requires s.entries[n].loss != Some(why)
    ensures LosesNow(cfg, s, n, why)
  {
    hide Inv, CtlInv, EntryInv, LeaseInv, LeaseName, HolderId, PathInv, BarredSound, ApprovedTimeout, Won,
         GaveUpWaiting, LockWait;
    AtCtl(cfg, s);
    WorkerFacts(cfg, s.leases, s.entries[s.ctl.n], s.ctl, s.now);
  }

  lemma CleaningLosesNothing(cfg: Config, s: State, n: string)
    requires Inv(cfg, s) && s.ctl.Busy? && s.ctl.pc.Cleaning? && n in s.entries
    ensures CleanUp(cfg, s, s.ctl, s.ctl.pc.tr).entries == s.entries
  {
    var b := s.ctl;
    hide Inv, CtlInv, EntryInv, LeaseInv, LeaseName, HolderId, PathInv, BarredSound, ApprovedTimeout, MarkLost, Since;
    AtCtl(cfg, s);
    WorkerFacts(cfg, s.leases, s.entries[b.n], b, s.now);
    CleanAllowed(cfg, s.leases, s.leases, s.entries[b.n], b, s.now, b.pc.tr);
    if Holds(cfg, s.leases, b.n, b.ar.spec) {
      assert EntriesInv(cfg, s.entries) by { EntriesOf(cfg, s); }
      NobodyLost(cfg, s.entries, s.leases, b.n, GivenUp(b.t, Since(b.ar.conds)));
    }
  }

  lemma EntriesOf(cfg: Config, s: State)
    requires Inv(cfg, s)
    ensures EntriesInv(cfg, s.entries)
  {
  }

  lemma StepLoses(cfg: Config, s: State, a: Step, n: string, why: Loss)
    requires Inv(cfg, s) && n in Do(cfg, s, a).entries && Do(cfg, s, a).entries[n].loss == Some(why)
    requires !(n in s.entries && s.entries[n].loss == Some(why))
    ensures a == StepAdvance && LosesNow(cfg, s, n, why)
  {
    hide Inv, LosesNow, Do, Follows, Advance, WriteVerdict;
    if !Notable(s, a) {
      OtherRemembers(cfg, s, a);
    } else {
      NotableStep(cfg, s, a);
      if a.StepWriteVerdict? {
        VerdictFollows(s, a.id);
      } else if s.ctl.pc.Noting? {
        NotingAdvance(cfg, s, s.ctl);
      } else {
        AdvanceLoses(cfg, s, n, why);
      }
    }
  }

  lemma AdvanceLoses(cfg: Config, s: State, n: string, why: Loss)
    requires Inv(cfg, s) && s.ctl.Busy? && Dispossesses(s.ctl.pc)
    requires n in Advance(cfg, s, s.ctl).entries && Advance(cfg, s, s.ctl).entries[n].loss == Some(why)
    requires !(n in s.entries && s.entries[n].loss == Some(why))
    ensures LosesNow(cfg, s, n, why)
  {
    hide Inv, LosesNow, Acquire, CleanUp, Released;
    assert n in s.entries by {
      hide Advance;
      DispossessOnly(cfg, s, s.ctl);
    }
    match s.ctl.pc
    case Releasing(tr) => ReleaseLoses(cfg, s, n, why);
    case Cleaning(tr) => CleaningLosesNothing(cfg, s, n);
    case Acquiring => TakeoverLoses(cfg, s, n, why);
  }

  /** Every loss on record happened: at some step of the run the lease was taken over after it ran
      out, or released because the approval had timed out. */
  lemma {:induction false} LossHappened(cfg: Config, t0: int, steps: seq<Step>, n: string)
    requires n in Run(cfg, t0, steps).entries && Run(cfg, t0, steps).entries[n].loss.Some?
    ensures exists k :: && 0 <= k < |steps| && steps[k] == StepAdvance
                        && LosesNow(cfg, Run(cfg, t0, steps[..k]), n, Run(cfg, t0, steps).entries[n].loss.value)
  {
    hide Run, Do, Inv, LosesNow;
    if steps == [] {
      NothingYet(cfg, t0, n);
      return;
    }
    var last, why := |steps| - 1, Run(cfg, t0, steps).entries[n].loss.value;
    var s := Run(cfg, t0, steps[..last]);
    RunLast(cfg, t0, steps);
    if n in s.entries && s.entries[n].loss == Some(why) {
      LossHappened(cfg, t0, steps[..last], n);
      var k :| 0 <= k < last && steps[..last][k] == StepAdvance && LosesNow(cfg, Run(cfg, t0, steps[..last][..k]), n, why);
      assert steps[..last][..k] == steps[..k] && steps[k] == StepAdvance;
    } else {
      RunKeeps(cfg, t0, steps[..last]);
      StepLoses(cfg, s, steps[last], n, why);
    }
  }
}

/** What one reconcile decides is always something it may do: each decision function leads to
    a program counter whose invariant holds. */
module Decisions {
  import opened Api
  import opened Lifecycle
  import opened Phases
  import opened Invariant
  import opened Entries

  /** The decision ended the reconcile, or its next call is allowed. */
  predicate Allowed(cfg: Config, leases: map<string, Lease>, e: Entry, b: Ctl, now: int) {
    b.Busy? ==> CtlInv(cfg, leases, e, b, now)
  }

  predicate About(b: Ctl, b': Ctl) {
    b.Busy? && (b'.Busy? ==> b'.n == b.n)
  }

  /** What the running reconcile knows about its request. */
  lemma WorkerFacts(cfg: Config, leases: map<string, Lease>, e: Entry, b: Ctl, now: int)
    requires b.Busy? && CtlInv(cfg, leases, e, b, now) && EntryInv(cfg, e)
    ensures b.ar.spec == e.r.spec && PathInv(e) && BarredSound(e)
    ensures b.pc == Acquiring ==> e.r.phase == Pending
    ensures b.pc == Renewing ==>
              e.r.phase == Approved && e.approvedAt.Some? && b.t <= e.approvedAt.value + ApprovedTimeout(cfg)
  {
    hide Holds;
  }

  lemma FetchAllowed(cfg: Config, leases: map<string, Lease>, n: string, e: Entry, now: int)
    requires EntryInv(cfg, e) && Timely(e, now) && !Settled(e.r.phase)
    ensures Allowed(cfg, leases, e, Busy(n, now, e.r, None, Fetched), now)
  {
  }

  lemma CheckAllowed(cfg: Config, leases: map<string, Lease>, e: Entry, b: Ctl, now: int, found: Option<int>)
    requires b.Busy? && b.pc == Fetched && CtlInv(cfg, leases, e, b, now)
    ensures Allowed(cfg, leases, e, CheckResource(b, found), now) && About(b, CheckResource(b, found))
  {
  }

  lemma InitializeAllowed(cfg: Config, leases: map<string, Lease>, e: Entry, b: Ctl, now: int, soak: bool)
    requires b.Busy? && b.pc == Checked && CtlInv(cfg, leases, e, b, now) && b.ar.phase == Unset
    ensures Allowed(cfg, leases, e, Go(b, Moving(Initialize(b, soak))), now)
  {
  }

  lemma PendingAllowed(cfg: Config, leases: map<string, Lease>, e: Entry, b: Ctl, now: int, result: Action)
    requires b.Busy? && b.pc == Checked && CtlInv(cfg, leases, e, b, now) && b.ar.phase == Pending
    ensures Allowed(cfg, leases, e, DispatchPending(b, result), now) && About(b, DispatchPending(b, result))
  {
  }

  lemma ApprovedAllowed(cfg: Config, leases: map<string, Lease>, e: Entry, b: Ctl, now: int)
    requires b.Busy? && b.pc == Checked && CtlInv(cfg, leases, e, b, now) && b.ar.phase == Approved && Unsignaled(b.ar.conds)
    ensures Allowed(cfg, leases, e, DispatchApproved(cfg, b), now) && About(b, DispatchApproved(cfg, b))
  {
  }

  lemma ExecutingAllowed(cfg: Config, leases: map<string, Lease>, e: Entry, b: Ctl, now: int)
    requires b.Busy? && b.pc == Checked && CtlInv(cfg, leases, e, b, now) && b.ar.phase == Executing
    ensures Allowed(cfg, leases, e, DispatchExecuting(cfg, leases, b), now)
    ensures About(b, DispatchExecuting(cfg, leases, b))
  {
  }

  lemma VerdictAllowed(cfg: Config, leases: map<string, Lease>, e: Entry, b: Ctl, now: int)
    requires b.Busy? && b.pc == Checked && CtlInv(cfg, leases, e, b, now) && b.ar.phase == AwaitingVerdict
    ensures Allowed(cfg, leases, e, DispatchVerdict(b), now) && About(b, DispatchVerdict(b))
  {
  }

  lemma SignaledAllowed(cfg: Config, leases: map<string, Lease>, e: Entry, b: Ctl, now: int, to: Phase,
                        cleanup: Cleanup, events: seq<Event>)
    requires b.Busy? && b.pc == Checked && CtlInv(cfg, leases, e, b, now)
    requires || (to == Completed && b.ar.conds.completed.IsTrue())
             || to == Failed
             || (to == Executing && b.ar.phase == Approved && b.ar.conds.executing.IsTrue())
    requires cleanup == (if to == Executing then NoCleanup else ReleaseLock)
    ensures Allowed(cfg, leases, e, Go(b, Moving(Transition(b.ar.phase, to, None, cleanup, events))), now)
  {
  }

  /** The whole decision step. */
  lemma DispatchAllowed(cfg: Config, leases: map<string, Lease>, e: Entry, b: Ctl, now: int, result: Action, soak: bool)
    requires b.Busy? && b.pc == Checked && CtlInv(cfg, leases, e, b, now)
    ensures Allowed(cfg, leases, e, Dispatch(cfg, leases, b, result, soak), now)
    ensures About(b, Dispatch(cfg, leases, b, result, soak))
  {
    var cs := b.ar.conds;
    hide CtlInv, Initialize, DispatchPending, DispatchApproved, DispatchExecuting, DispatchVerdict;
    if cs.completed.IsTrue() {
      SignaledAllowed(cfg, leases, e, b, now, Completed, ReleaseLock, [RequestCompleted, LockReleased]);
    } else if cs.failed.IsTrue() {
      SignaledAllowed(cfg, leases, e, b, now, Failed, ReleaseLock, [RequestFailed, LockReleased]);
    } else if cs.executing.IsTrue() && b.ar.phase == Approved {
      SignaledAllowed(cfg, leases, e, b, now, Executing, NoCleanup, [LockAcquired, RequestExecuting]);
    } else if b.ar.phase == Unset {
      InitializeAllowed(cfg, leases, e, b, now, soak);
    } else if b.ar.phase == Pending {
      PendingAllowed(cfg, leases, e, b, now, result);
    } else if b.ar.phase == Approved {
      ApprovedAllowed(cfg, leases, e, b, now);
    } else if b.ar.phase == Executing {
      ExecutingAllowed(cfg, leases, e, b, now);
    } else if b.ar.phase == AwaitingVerdict {
      VerdictAllowed(cfg, leases, e, b, now);
    }
  }

  // ---------- commits ----------

  lemma NoteAllowed(cfg: Config, leases: map<string, Lease>, e: Entry, b: Ctl, now: int, cs: Conds, acquire: bool)
    requires b.Busy? && b.pc == Noting(cs, acquire) && CtlInv(cfg, leases, e, b, now) && EntryInv(cfg, e)
    ensures EntryInv(cfg, Noted(e, cs)) && Evolves(e, Noted(e, cs)) && Timely(Noted(e, cs), now)
    ensures CtlInv(cfg, leases, Noted(e, cs), b.(pc := NotingAudit(acquire), ar := Noted(e, cs).r), now)
  {
    NoteSound(cfg, e, cs, b.t);
    hide OriginSound, PathInv, ApprovalSound, BarredSound, LossSound, DeletionSound, Holds;
  }

  lemma NotedLease(cfg: Config, leases: map<string, Lease>, e: Entry, n: string, cs: Conds)
    requires LeaseInv(cfg, leases, n, e)
    ensures LeaseInv(cfg, leases, n, Noted(e, cs))
  {
    hide Holds;
  }

  lemma MoveAllowed(cfg: Config, leases: map<string, Lease>, e: Entry, b: Ctl, now: int, tr: Transition)
    requires b.Busy? && b.pc == Moving(tr) && CtlInv(cfg, leases, e, b, now) && EntryInv(cfg, e) && e.live
    ensures var e' := Moved(e, tr, ReadBy(b));
            EntryInv(cfg, e') && Evolves(e, e') && Timely(e', now) && CtlInv(cfg, leases, e', AfterMove(b, tr, e'.r), now)
  {
    MoveSound(cfg, e, tr, ReadBy(b), b.t);
    hide OriginSound, PathInv, ApprovalSound, BarredSound, LossSound, DeletionSound, ListOk, Holds;
  }

  lemma MovedLease(cfg: Config, leases: map<string, Lease>, e: Entry, b: Ctl, now: int, tr: Transition)
    requires b.Busy? && b.pc == Moving(tr) && CtlInv(cfg, leases, e, b, now) && LeaseInv(cfg, leases, b.n, e)
    ensures LeaseInv(cfg, leases, b.n, Moved(e, tr, ReadBy(b)))
  {
    hide Holds, NextListOk, Sourced, Grounded, SeenAdmitted;
  }

  /** Giving up the lock before the timeout patch leaves the plan in order. */
  lemma ReleaseAllowed(cfg: Config, leases: map<string, Lease>, leases': map<string, Lease>, e: Entry, e': Entry,
                       b: Ctl, now: int, tr: Transition)
    requires b.Busy? && b.pc == Releasing(tr) && CtlInv(cfg, leases, e, b, now) && e' == e.(loss := e'.loss)
    ensures CtlInv(cfg, leases', e', Go(b, Moving(tr)), now)
    ensures Justified(cfg, GivenUp(b.t, Since(b.ar.conds)))
  {
    hide Holds;
  }

  lemma CleanAllowed(cfg: Config, leases: map<string, Lease>, leases': map<string, Lease>, e: Entry, b: Ctl,
                     now: int, tr: Transition)
    requires b.Busy? && b.pc == Cleaning(tr) && CtlInv(cfg, leases, e, b, now) && PathInv(e)
    ensures CtlInv(cfg, leases', e, Go(b, Recording(tr, 0)), now)
    ensures !Active(e.r.phase) && b.ar.spec == e.r.spec
    ensures tr.cleanup == DropLease ==> Holds(cfg, leases, b.n, e.r.spec)
  {
    hide Holds, PathOk;
  }

  lemma RecordAllowed(cfg: Config, leases: map<string, Lease>, e: Entry, b: Ctl, now: int, tr: Transition, k: nat)
    requires b.Busy? && b.pc == Recording(tr, k) && CtlInv(cfg, leases, e, b, now)
    ensures Allowed(cfg, leases, e, AfterRecord(b, tr, k), now) && About(b, AfterRecord(b, tr, k))
  {
    hide Holds;
  }

  lemma NotedAllowed(cfg: Config, leases: map<string, Lease>, e: Entry, b: Ctl, now: int)
    requires b.Busy? && b.pc == NotingAudit(true) && CtlInv(cfg, leases, e, b, now)
    ensures CtlInv(cfg, leases, e, Go(b, Acquiring), now)
  {
    hide Holds;
  }

  lemma WonAllowed(cfg: Config, leases: map<string, Lease>, leases': map<string, Lease>, e: Entry, b: Ctl, now: int)
    requires b.Busy? && b.pc == Acquiring && CtlInv(cfg, leases, e, b, now) && BarredSound(e)
    requires Holds(cfg, leases', b.n, e.r.spec)
    ensures CtlInv(cfg, leases', e, Won(b), now) && About(b, Won(b))
  {
    hide Holds;
  }

  lemma GaveUpAllowed(cfg: Config, leases: map<string, Lease>, e: Entry, b: Ctl, now: int)
    requires b.Busy? && b.pc == Acquiring && CtlInv(cfg, leases, e, b, now) && BarredSound(e)
    ensures CtlInv(cfg, leases, e, GaveUpWaiting(b), now) && About(b, GaveUpWaiting(b))
  {
    hide Holds;
  }
}

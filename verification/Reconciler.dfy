/** The reconcile as straight-line code over the API server's objects, one method per controller
    function. Between any two of its API calls other clients may do anything, and the process may
    die. Whatever it does is a run of the lifecycle machine, so everything proved about runs holds
    of it; and a process that lives for five more writes leaves the phase and the leases that its
    inputs call for. */
module Reconciler {
  import opened Api
  import opened Lifecycle
  import opened Invariant
  import opened Steps
  import opened History

  // ---------- other clients ----------

  /** Steps other clients may take while a reconcile is running. */
  predicate Foreign(a: Step) {
    !(a.Fetch? || a.StepCheckResource? || a.StepDispatch? || a == StepAdvance || a == StepTolerate || a == Crash)
  }

  /** The request is still known and in the phase it was. */
  predicate KeptPhase(entries: map<string, Entry>, entries': map<string, Entry>, n: string) {
    n in entries ==> n in entries' && entries'[n].r.phase == entries[n].r.phase
  }

  ghost predicate KeptPhases(entries: map<string, Entry>, entries': map<string, Entry>) {
    forall n :: KeptPhase(entries, entries', n)
  }

  lemma SubmitPhases(s: State, a: Step)
    requires Submits(a)
    ensures KeptPhases(s.entries, DoSubmit(s, a).entries)
  {
    hide AdmitHttp, AdmitMcp, NewEntry, GoodName;
  }

  lemma ReportPhases(s: State, a: Step)
    requires Reports(a)
    ensures KeptPhases(s.entries, DoReport(s, a).entries)
  {
    hide AbandonConds, WithSignal, Begin, ReadConds, SetTask;
  }

  lemma ReviewPhases(cfg: Config, s: State, a: Step)
    requires Reviews(a)
    ensures KeptPhases(s.entries, DoReview(cfg, s, a).entries)
  {
    hide StartDecision, StartVerdict, SetTask;
  }

  lemma CollectPhases(cfg: Config, s: State, a: Step)
    requires Collects(a)
    ensures KeptPhases(s.entries, DoCollect(cfg, s, a).entries)
  {
    hide Begin, Judge, Collectable;
  }

  lemma ForeignAside(cfg: Config, s: State, a: Step)
    requires Foreign(a)
    ensures Do(cfg, s, a).ctl == s.ctl && Do(cfg, s, a).leases == s.leases
    ensures KeptPhases(s.entries, Do(cfg, s, a).entries)
  {
    hide DoSubmit, DoReport, DoReview, DoCollect, KeptPhases;
    if Submits(a) { SubmitAside(s, a); SubmitPhases(s, a); }
    else if Reports(a) { ReportAside(s, a); ReportPhases(s, a); }
    else if Reviews(a) { ReviewAside(cfg, s, a); ReviewPhases(cfg, s, a); }
    else if Collects(a) { CollectAside(cfg, s, a); CollectPhases(cfg, s, a); }
    else { assert KeptPhases(s.entries, s.entries) by { SamePhases(s.entries); } }
  }

  lemma SamePhases(entries: map<string, Entry>)
    ensures KeptPhases(entries, entries)
  {
  }

  lemma KeptOne(entries: map<string, Entry>, entries': map<string, Entry>, n: string)
    requires KeptPhases(entries, entries')
    ensures KeptPhase(entries, entries', n)
  {
    hide KeptPhase;
  }

  lemma PhaseOn(a: map<string, Entry>, b: map<string, Entry>, c: map<string, Entry>, n: string)
    requires KeptPhase(a, b, n) && KeptPhase(b, c, n)
    ensures KeptPhase(a, c, n)
  {
  }

  lemma PhasesOn(a: map<string, Entry>, b: map<string, Entry>, c: map<string, Entry>)
    requires KeptPhases(a, b) && KeptPhases(b, c)
    ensures KeptPhases(a, c)
  {
    forall n ensures KeptPhase(a, c, n) {
      assert KeptPhase(a, b, n) && KeptPhase(b, c, n);
    }
  }

  // ---------- the controller's own steps ----------

  lemma CrashStep(cfg: Config, s: State)
    requires s.ctl.Busy?
    ensures Do(cfg, s, Crash) == Abort(s)
  {
    hide Do, Advance, Tolerate, Decided, CheckResource, StepFetch;
    ControlIs(cfg, s, Crash);
  }

  lemma AdvanceStep(cfg: Config, s: State)
    requires s.ctl.Busy?
    ensures Do(cfg, s, StepAdvance) == Advance(cfg, s, s.ctl)
  {
    hide Do, Advance, Tolerate, Decided, CheckResource, StepFetch;
    ControlIs(cfg, s, StepAdvance);
  }

  lemma MoveStep(cfg: Config, s: State, tr: Transition)
    requires s.ctl.Busy? && s.ctl.pc == Moving(tr)
    ensures Do(cfg, s, StepAdvance) == CommitMove(s, s.ctl, tr)
  {
    hide Do, CommitMove;
    AdvanceStep(cfg, s);
  }

  lemma NoteStep(cfg: Config, s: State, cs: Conds, acquire: bool)
    requires s.ctl.Busy? && s.ctl.pc == Noting(cs, acquire)
    ensures Do(cfg, s, StepAdvance) == CommitNote(s, s.ctl, cs, acquire)
  {
    hide Do, CommitNote;
    AdvanceStep(cfg, s);
  }

  lemma RecordStep(cfg: Config, s: State, tr: Transition, k: nat)
    requires s.ctl.Busy? && s.ctl.pc == Recording(tr, k) && k < |tr.events|
    ensures Do(cfg, s, StepAdvance) == CreateAudit(cfg, s, s.ctl.n, KeyOf(s.ctl.n, tr, tr.events[k])).(ctl := AfterRecord(s.ctl, tr, k))
  {
    hide Do, CreateAudit, KeyOf, AfterRecord;
    AdvanceStep(cfg, s);
  }

  lemma EvaluationStep(cfg: Config, s: State, acquire: bool)
    requires s.ctl.Busy? && s.ctl.pc == NotingAudit(acquire)
    ensures Do(cfg, s, StepAdvance) == CreateAudit(cfg, s, s.ctl.n, AuditKey(s.ctl.n, PolicyEvaluated, Pending, Unset))
                                         .(ctl := if acquire then Go(s.ctl, Acquiring) else Idle)
  {
    hide Do, CreateAudit;
    AdvanceStep(cfg, s);
  }

  lemma AcquireStep(cfg: Config, s: State)
    requires s.ctl.Busy? && s.ctl.pc == Acquiring
    ensures Do(cfg, s, StepAdvance) == Acquire(cfg, s, s.ctl)
  {
    hide Do, Acquire;
    AdvanceStep(cfg, s);
  }

  lemma ReleaseStep(cfg: Config, s: State, tr: Transition, next: Pc)
    requires s.ctl.Busy?
    requires || (s.ctl.pc == Releasing(tr) && next == Moving(tr))
             || (s.ctl.pc == Cleaning(tr) && tr.cleanup == ReleaseLock && next == Recording(tr, 0))
    ensures Do(cfg, s, StepAdvance) ==
              Released(cfg, s, s.ctl.n, s.ctl.ar.spec, GivenUp(s.ctl.t, Since(s.ctl.ar.conds))).(ctl := Go(s.ctl, next))
  {
    hide Do, Released, Since;
    AdvanceStep(cfg, s);
  }

  lemma DropStep(cfg: Config, s: State, tr: Transition)
    requires s.ctl.Busy? && s.ctl.pc == Cleaning(tr) && tr.cleanup == DropLease
    ensures Do(cfg, s, StepAdvance) ==
              RemoveLease(cfg, s, LeaseName(cfg, s.ctl.ar.spec.uri), GivenUp(s.ctl.t, Since(s.ctl.ar.conds)))
                .(ctl := Go(s.ctl, Recording(tr, 0)))
  {
    hide Do, RemoveLease, Since, LeaseName;
    AdvanceStep(cfg, s);
  }

  lemma RenewStep(cfg: Config, s: State)
    requires s.ctl.Busy? && s.ctl.pc == Renewing
    ensures Do(cfg, s, StepAdvance) == Renew(cfg, s, s.ctl)
  {
    hide Do, Renew;
    AdvanceStep(cfg, s);
  }

  /** Most events are filed under the phase change itself. */
  lemma PlainKey(n: string, tr: Transition, e: Event)
    requires e != LockAcquired && e != LockReleased && e != PolicyEvaluated
    ensures KeyOf(n, tr, e) == AuditKey(n, e, tr.from, tr.to)
  {
  }

  lemma KeyNames(n: string, tr: Transition, e: Event)
    ensures KeyOf(n, tr, e).request == n && KeyOf(n, tr, e).event == e
  {
  }

  lemma DropFails(s: State, tr: Transition)
    requires s.ctl.Busy? && s.ctl.pc == Cleaning(tr) && tr.cleanup == DropLease
    ensures Tolerate(s, s.ctl) == s.(ctl := Go(s.ctl, Recording(tr, 0)))
  {
  }

  lemma EvaluationFails(s: State, acquire: bool)
    requires s.ctl.Busy? && s.ctl.pc == NotingAudit(acquire)
    ensures Tolerate(s, s.ctl) == s.(ctl := if acquire then Go(s.ctl, Acquiring) else Idle)
  {
  }

  lemma DenialFails(s: State, tr: Transition)
    requires s.ctl.Busy? && s.ctl.pc == Recording(tr, 0) && tr.events == [PolicyEvaluated, RequestDenied]
    ensures Tolerate(s, s.ctl) == s.(ctl := Go(s.ctl, Recording(tr, 1)))
  {
  }

  lemma TolerateStep(cfg: Config, s: State)
    requires s.ctl.Busy?
    ensures Do(cfg, s, StepTolerate) == Tolerate(s, s.ctl)
  {
    hide Do, Advance, Tolerate, Decided, CheckResource, StepFetch;
    ControlIs(cfg, s, StepTolerate);
  }

  lemma DecideStep(cfg: Config, s: State, result: Action, soak: bool)
    requires s.ctl.Busy? && s.ctl.pc == Checked
    ensures Do(cfg, s, StepDispatch(result, soak)) == Decided(cfg, s, s.ctl, result, soak)
  {
    hide Decided, Do;
    ControlIs(cfg, s, StepDispatch(result, soak));
  }

  lemma DispatchesFirst(cfg: Config, leases: map<string, Lease>, b: Ctl, result: Action, soak: bool)
    requires b.Busy? && Unreported(b.ar) && b.ar.phase == Unset && !b.ar.conds.submitted.IsTrue()
    ensures Dispatch(cfg, leases, b, result, soak) == Go(b, Moving(Initialize(b, soak)))
  {
  }

  lemma CheckStep(cfg: Config, s: State, found: Option<int>)
    requires s.ctl.Busy? && s.ctl.pc == Fetched
    ensures Do(cfg, s, StepCheckResource(found)) == s.(ctl := CheckResource(s.ctl, found))
  {
    hide CheckResource, Do;
    ControlIs(cfg, s, StepCheckResource(found));
  }

  lemma FetchStep(cfg: Config, s: State, n: string)
    requires s.ctl.Idle? && Stored(s, n) && !Settled(s.entries[n].r.phase)
    ensures Do(cfg, s, Fetch(n)) == s.(ctl := Busy(n, s.now, s.entries[n].r, None, Fetched))
  {
    hide Do;
    ControlIs(cfg, s, Fetch(n));
  }

  /** The steps that are API writes of the controller, succeeding or failing. */
  predicate IsWrite(a: Step) {
    a == StepAdvance || a == StepTolerate
  }

  function Writes(steps: seq<Step>): nat {
    if steps == [] then 0
    else Writes(steps[..|steps| - 1]) + if IsWrite(steps[|steps| - 1]) then 1 else 0
  }

  /** Since step `born`, where the process was started, every write has been paid for out of `life`, and
      it has died only with nothing left to pay with. */
  ghost predicate Accounted(steps: seq<Step>, born: nat, budget: nat, life: nat) {
    && born <= |steps|
    && budget + Writes(steps[born..]) == life
    && (Crash in steps[born..] ==> budget == 0)
  }

  /** The books end in state `s`. */
  ghost predicate Books(cfg: Config, t0: int, steps: seq<Step>, born: nat, budget: nat, life: nat, s: State) {
    s == Run(cfg, t0, steps) && Accounted(steps, born, budget, life)
  }

  /** One more step in the books. */
  lemma OneMore(cfg: Config, t0: int, steps: seq<Step>, born: nat, budget: nat, life: nat, s: State, a: Step)
    requires Books(cfg, t0, steps, born, budget, life, s)
    requires (IsWrite(a) ==> budget > 0) && (a == Crash ==> budget == 0)
    ensures Books(cfg, t0, steps + [a], born, if IsWrite(a) then budget - 1 else budget, life, Do(cfg, s, a))
    ensures steps <= steps + [a]
  {
    hide Run, Do, Writes;
    RunOn(cfg, t0, steps, a);
    Longer(steps, born, a);
    WritesOn(steps[born..], a);
  }

  lemma Longer(steps: seq<Step>, born: nat, a: Step)
    requires born <= |steps|
    ensures (steps + [a])[born..] == steps[born..] + [a]
  {
  }

  lemma WritesOn(steps: seq<Step>, a: Step)
    ensures Writes(steps + [a]) == Writes(steps) + if IsWrite(a) then 1 else 0
  {
    assert (steps + [a])[..|steps|] == steps;
  }

  /** The running reconcile's copy has the spec that is stored: specs never change. And a request is not
      deleted before it is settled, so it is there when its phase is to change. */
  lemma SpecKnown(cfg: Config, t0: int, steps: seq<Step>, born: nat, budget: nat, life: nat, s: State)
    requires Books(cfg, t0, steps, born, budget, life, s) && s.ctl.Busy?
    ensures s.ctl.n in s.entries && s.entries[s.ctl.n].r.spec == s.ctl.ar.spec
    ensures s.ctl.pc.Moving? || s.ctl.pc.Noting? ==> Stored(s, s.ctl.n)
  {
    hide Run, Inv, EntryInv, LeaseInv, CtlInv, Accounted;
    RunKeeps(cfg, t0, steps);
    AtCtl(cfg, s);
    CopyGood(cfg, s.leases, s.entries[s.ctl.n], s.ctl, s.now);
  }

  lemma CopyGood(cfg: Config, leases: map<string, Lease>, e: Entry, b: Ctl, now: int)
    requires b.Busy? && CtlInv(cfg, leases, e, b, now) && EntryInv(cfg, e)
    ensures e.r.spec == b.ar.spec && (b.pc.Moving? || b.pc.Noting? ==> e.live)
  {
    hide Holds, OriginSound, ApprovalSound, BarredSound, LossSound, DeletionSound, NextListOk, Sourced;
  }

  /** The process has just died, for want of writes. */
  predicate JustDied(steps: seq<Step>, budget: nat) {
    steps != [] && steps[|steps| - 1] == Crash && budget == 0
  }

  lemma DiedNow(steps: seq<Step>)
    ensures JustDied(steps + [Crash], 0)
  {
  }

  /** From step `k` on, one patch of the controller stored an evaluation of `n` with this result. */
  ghost predicate CommittedSince(cfg: Config, t0: int, steps: seq<Step>, k: nat, n: string, result: Action) {
    exists i :: k <= i < |steps| && steps[i] == StepAdvance && Commits(Run(cfg, t0, steps[..i]), n, result)
  }

  lemma StillCommitted(cfg: Config, t0: int, steps: seq<Step>, steps': seq<Step>, k: nat, n: string, result: Action)
    requires steps <= steps' && CommittedSince(cfg, t0, steps, k, n, result)
    ensures CommittedSince(cfg, t0, steps', k, n, result)
  {
    hide Run, Commits;
    var i :| k <= i < |steps| && steps[i] == StepAdvance && Commits(Run(cfg, t0, steps[..i]), n, result);
    assert steps'[..i] == steps[..i] && steps'[i] == StepAdvance;
  }

  /** This step stored `n` with this phase and list; without a list the stored one stayed. */
  predicate StoredBy(s: State, s': State, n: string, phase: Phase, list: Option<Conds>) {
    && n in s.entries && n in s'.entries && s'.entries[n].r.phase == phase
    && s'.entries[n].r.conds == (if list.Some? then list.value else s.entries[n].r.conds)
  }

  /** From step `k` on, one patch of the controller stored `n` so. */
  ghost predicate PatchSince(cfg: Config, t0: int, steps: seq<Step>, k: nat, n: string, phase: Phase, list: Option<Conds>) {
    exists i :: k <= i < |steps| && PatchAt(cfg, t0, steps, i, n, phase, list)
  }

  ghost predicate PatchAt(cfg: Config, t0: int, steps: seq<Step>, i: nat, n: string, phase: Phase, list: Option<Conds>)
    requires i < |steps|
  {
    steps[i] == StepAdvance && StoredBy(Run(cfg, t0, steps[..i]), Run(cfg, t0, steps[..i + 1]), n, phase, list)
  }

  /** From step `k` on, one call of the controller left this audit record stored under its name. */
  ghost predicate FiledSince(cfg: Config, t0: int, steps: seq<Step>, k: nat, key: AuditKey) {
    exists i :: k <= i < |steps| && FiledAt(cfg, t0, steps, i, key)
  }

  ghost predicate FiledAt(cfg: Config, t0: int, steps: seq<Step>, i: nat, key: AuditKey)
    requires i < |steps|
  {
    steps[i] == StepAdvance && AuditName(cfg, key) in Run(cfg, t0, steps[..i + 1]).audits
  }

  /** The record is stored, or that it could not be was logged. */
  ghost predicate FiledOrLogged(cfg: Config, t0: int, steps: seq<Step>, k: nat, key: AuditKey) {
    FiledSince(cfg, t0, steps, k, key) || Logged(steps, k)
  }

  /** From step `k` on, some failed call was only logged. */
  ghost predicate Logged(steps: seq<Step>, k: nat) {
    exists i :: k <= i < |steps| && steps[i] == StepTolerate
  }

  lemma LoggedOn(steps: seq<Step>, steps': seq<Step>, k: nat)
    requires steps <= steps' && Logged(steps, k)
    ensures Logged(steps', k)
  {
    var i :| k <= i < |steps| && steps[i] == StepTolerate;
    assert steps'[i] == StepTolerate;
  }

  lemma LogsNow(steps: seq<Step>, k: nat)
    requires k <= |steps|
    ensures Logged(steps + [StepTolerate], k)
  {
    assert (steps + [StepTolerate])[|steps|] == StepTolerate;
  }

  /** The patch, and a record for each of the keys. */
  ghost predicate Did(cfg: Config, t0: int, steps: seq<Step>, k: nat, n: string, phase: Phase, list: Option<Conds>,
                      keys: seq<AuditKey>)
  {
    PatchSince(cfg, t0, steps, k, n, phase, list) && forall i :: 0 <= i < |keys| ==> FiledSince(cfg, t0, steps, k, keys[i])
  }

  lemma PatchOn(cfg: Config, t0: int, steps: seq<Step>, steps': seq<Step>, k: nat, j: nat, n: string, phase: Phase, list: Option<Conds>)
    requires steps <= steps' && j <= k && PatchSince(cfg, t0, steps, k, n, phase, list)
    ensures PatchSince(cfg, t0, steps', j, n, phase, list)
  {
    hide Run, StoredBy;
    var i :| k <= i < |steps| && PatchAt(cfg, t0, steps, i, n, phase, list);
    assert steps'[..i] == steps[..i] && steps'[..i + 1] == steps[..i + 1];
    assert PatchAt(cfg, t0, steps', i, n, phase, list);
  }

  lemma FiledOn(cfg: Config, t0: int, steps: seq<Step>, steps': seq<Step>, k: nat, j: nat, key: AuditKey)
    requires steps <= steps' && j <= k && FiledSince(cfg, t0, steps, k, key)
    ensures FiledSince(cfg, t0, steps', j, key)
  {
    hide Run, AuditName;
    var i :| k <= i < |steps| && FiledAt(cfg, t0, steps, i, key);
    assert steps'[..i + 1] == steps[..i + 1];
    assert FiledAt(cfg, t0, steps', i, key);
  }

  lemma NotedOn(cfg: Config, t0: int, steps: seq<Step>, steps': seq<Step>, k: nat, j: nat, key: AuditKey)
    requires steps <= steps' && j <= k && FiledOrLogged(cfg, t0, steps, k, key)
    ensures FiledOrLogged(cfg, t0, steps', j, key)
  {
    hide FiledSince;
    if FiledSince(cfg, t0, steps, k, key) {
      FiledOn(cfg, t0, steps, steps', k, j, key);
    } else {
      var i :| k <= i < |steps| && steps[i] == StepTolerate;
      assert steps'[i] == StepTolerate;
      assert Logged(steps', j);
    }
  }

  lemma DidOn(cfg: Config, t0: int, steps: seq<Step>, steps': seq<Step>, k: nat, j: nat, n: string, phase: Phase,
              list: Option<Conds>, keys: seq<AuditKey>)
    requires steps <= steps' && j <= k && Did(cfg, t0, steps, k, n, phase, list, keys)
    ensures Did(cfg, t0, steps', j, n, phase, list, keys)
  {
    hide PatchSince, FiledSince;
    PatchOn(cfg, t0, steps, steps', k, j, n, phase, list);
    forall i | 0 <= i < |keys| ensures FiledSince(cfg, t0, steps', j, keys[i]) {
      FiledOn(cfg, t0, steps, steps', k, j, keys[i]);
    }
  }

  /** The patch and one record, or one more, filed later. */
  lemma DidOne(cfg: Config, t0: int, steps: seq<Step>, steps': seq<Step>, k: nat, n: string, phase: Phase, list: Option<Conds>,
               key: AuditKey)
    requires steps <= steps' && PatchSince(cfg, t0, steps, k, n, phase, list) && FiledSince(cfg, t0, steps', k, key)
    ensures Did(cfg, t0, steps', k, n, phase, list, [key])
  {
    hide PatchSince, FiledSince;
    PatchOn(cfg, t0, steps, steps', k, k, n, phase, list);
  }

  lemma DidTwo(cfg: Config, t0: int, steps: seq<Step>, steps': seq<Step>, k: nat, n: string, phase: Phase, list: Option<Conds>,
               first: AuditKey, second: AuditKey)
    requires steps <= steps' && Did(cfg, t0, steps, k, n, phase, list, [first]) && FiledSince(cfg, t0, steps', k, second)
    ensures Did(cfg, t0, steps', k, n, phase, list, [first, second])
  {
    hide PatchSince, FiledSince;
    DidOn(cfg, t0, steps, steps', k, k, n, phase, list, [first]);
    assert [first][0] == first;
  }

  /** What a pending request that moves has stored and recorded. */
  ghost predicate PendingDone(cfg: Config, t0: int, steps: seq<Step>, k: nat, leases: map<string, Lease>, n: string, t: int,
                              ar: Request, result: Action)
  {
    var to := PendingAim(cfg, leases, n, t, ar, result);
    Did(cfg, t0, steps, k, n, to, Some(PendingList(cfg, leases, n, t, ar, result)),
        [AuditKey(n, if to == Approved then RequestApproved else RequestDenied, Pending, to)])
  }

  ghost predicate QuietDone(cfg: Config, t0: int, steps: seq<Step>, k: nat, leases: map<string, Lease>, n: string, t: int,
                            ar: Request, result: Action, soak: bool)
    requires Unreported(ar)
  {
    var to := QuietAim(cfg, leases, n, t, ar, result, soak);
    Did(cfg, t0, steps, k, n, to, AimList(cfg, leases, n, t, ar, Whole(ar.spec), result), AimKeys(cfg, leases, n, ar, Whole(ar.spec), to))
  }

  /** The generation of the governed resource under which the request was admitted. */
  function Whole(spec: Spec): Option<int> {
    if spec.ref.Some? then Some(spec.ref.value.generation) else None
  }

  lemma WholeIntact(spec: Spec)
    ensures Intact(spec, Whole(spec))
  {
  }

  /** An evaluation that does not deny is on the list before anything follows from it, and recorded. */
  ghost predicate EvaluationStored(cfg: Config, t0: int, steps: seq<Step>, k: nat, n: string, t: int, ar: Request, result: Action) {
    && (result != Deny ==> PatchSince(cfg, t0, steps, k, n, Pending, Some(NotedList(ar, t, result))))
    && FiledOrLogged(cfg, t0, steps, k, AuditKey(n, PolicyEvaluated, Pending, Unset))
  }

  /** What a reconcile that moves the request has stored and recorded. */
  ghost predicate AimDone(cfg: Config, t0: int, steps: seq<Step>, k: nat, leases: map<string, Lease>, n: string, t: int,
                          ar: Request, found: Option<int>, result: Action, soak: bool)
  {
    var to := Aim(cfg, leases, n, t, ar, found, result, soak);
    Did(cfg, t0, steps, k, n, to, AimList(cfg, leases, n, t, ar, found, result), AimKeys(cfg, leases, n, ar, found, to))
  }

  lemma NowPatches(cfg: Config, t0: int, steps: seq<Step>, born: nat, budget: nat, life: nat, s: State, k: nat, n: string,
                   phase: Phase, list: Option<Conds>)
    requires Books(cfg, t0, steps, born, budget, life, s) && k <= |steps| && StoredBy(s, Do(cfg, s, StepAdvance), n, phase, list)
    ensures PatchSince(cfg, t0, steps + [StepAdvance], k, n, phase, list)
  {
    hide Run, Do, StoredBy, Accounted;
    RunOn(cfg, t0, steps, StepAdvance);
    var all, i := steps + [StepAdvance], |steps|;
    assert all[..i] == steps && all[..i + 1] == all;
    assert PatchAt(cfg, t0, all, i, n, phase, list);
  }

  lemma NowNotes(cfg: Config, t0: int, steps: seq<Step>, born: nat, budget: nat, life: nat, s: State, k: nat, n: string,
                 cs: Conds, acquire: bool, before: map<string, Entry>)
    requires Books(cfg, t0, steps, born, budget, life, s) && k <= |steps|
    requires s.ctl.Busy? && s.ctl.n == n && s.ctl.pc == Noting(cs, acquire) && Stored(s, n) && KeptPhase(before, s.entries, n)
    ensures n in before ==> PatchSince(cfg, t0, steps + [StepAdvance], k, n, before[n].r.phase, Some(cs))
  {
    hide Run, Do, Books, PatchSince;
    NoteStep(cfg, s, cs, acquire);
    if n in before { NowPatches(cfg, t0, steps, born, budget, life, s, k, n, before[n].r.phase, Some(cs)); }
  }

  lemma NowFiles(cfg: Config, t0: int, steps: seq<Step>, born: nat, budget: nat, life: nat, s: State, k: nat, key: AuditKey)
    requires Books(cfg, t0, steps, born, budget, life, s) && k <= |steps|
    requires AuditName(cfg, key) in Do(cfg, s, StepAdvance).audits
    ensures FiledSince(cfg, t0, steps + [StepAdvance], k, key)
  {
    hide Run, Do, AuditName, Accounted;
    RunOn(cfg, t0, steps, StepAdvance);
    var all, i := steps + [StepAdvance], |steps|;
    assert all[..i] == steps && all[..i + 1] == all;
    assert FiledAt(cfg, t0, all, i, key);
  }

  lemma FiledName(cfg: Config, s: State, n: string, k: AuditKey, b: Ctl)
    requires n in s.entries
    ensures AuditName(cfg, k) in CreateAudit(cfg, s, n, k).(ctl := b).audits
  {
    hide AuditName;
  }

  lemma FilesRecord(cfg: Config, t0: int, steps: seq<Step>, born: nat, budget: nat, life: nat, s: State, since: nat,
                    tr: Transition, k: nat)
    requires Books(cfg, t0, steps, born, budget, life, s) && since <= |steps|
    requires s.ctl.Busy? && s.ctl.pc == Recording(tr, k) && k < |tr.events|
    ensures FiledSince(cfg, t0, steps + [StepAdvance], since, KeyOf(s.ctl.n, tr, tr.events[k]))
  {
    hide Do, Books, CreateAudit, KeyOf, AfterRecord, FiledSince;
    SpecKnown(cfg, t0, steps, born, budget, life, s);
    RecordStep(cfg, s, tr, k);
    FiledName(cfg, s, s.ctl.n, KeyOf(s.ctl.n, tr, tr.events[k]), AfterRecord(s.ctl, tr, k));
    NowFiles(cfg, t0, steps, born, budget, life, s, since, KeyOf(s.ctl.n, tr, tr.events[k]));
  }

  lemma FilesEvaluation(cfg: Config, t0: int, steps: seq<Step>, born: nat, budget: nat, life: nat, s: State, since: nat, acquire: bool)
    requires Books(cfg, t0, steps, born, budget, life, s) && since <= |steps| && s.ctl.Busy? && s.ctl.pc == NotingAudit(acquire)
    ensures FiledSince(cfg, t0, steps + [StepAdvance], since, AuditKey(s.ctl.n, PolicyEvaluated, Pending, Unset))
  {
    hide Do, Books, CreateAudit, FiledSince;
    var key := AuditKey(s.ctl.n, PolicyEvaluated, Pending, Unset);
    SpecKnown(cfg, t0, steps, born, budget, life, s);
    EvaluationStep(cfg, s, acquire);
    FiledName(cfg, s, s.ctl.n, key, if acquire then Go(s.ctl, Acquiring) else Idle);
    NowFiles(cfg, t0, steps, born, budget, life, s, since, key);
  }

  lemma AmongNew(before: seq<Step>, mid: seq<Step>, steps: seq<Step>, a: Step)
    requires before <= mid && mid + [a] <= steps
    ensures before <= steps && a in steps[|before|..]
  {
    assert steps[|before|..][|mid| - |before|] == a;
  }

  lemma MarkLostPhase(cfg: Config, entries: map<string, Entry>, ln: string, l: Lease, why: Loss, n: string)
    ensures KeptPhase(entries, MarkLost(cfg, entries, ln, l, why), n)
  {
  }

  lemma SamePhase(entries: map<string, Entry>, n: string)
    ensures KeptPhase(entries, entries, n)
  {
  }

  lemma CommitsHere(s: State, n: string, cs: Conds, acquire: bool)
    requires s.ctl.Busy? && s.ctl.n == n && s.ctl.pc == Noting(cs, acquire) && cs.basis.Some? && Stored(s, n)
    ensures Commits(s, n, cs.basis.value)
  {
  }

  lemma NowCommits(cfg: Config, t0: int, steps: seq<Step>, born: nat, budget: nat, life: nat, s: State, k: nat, n: string,
                   result: Action)
    requires Books(cfg, t0, steps, born, budget, life, s) && Commits(s, n, result) && k <= |steps|
    ensures CommittedSince(cfg, t0, steps + [StepAdvance], k, n, result)
  {
    hide Run, Commits;
    assert (steps + [StepAdvance])[..|steps|] == steps && (steps + [StepAdvance])[|steps|] == StepAdvance;
  }

  // ---------- what a reconcile is to achieve ----------

  /** The agent has reported nothing that moves the request. */
  predicate Unreported(ar: Request) {
    && !ar.conds.completed.IsTrue() && !ar.conds.failed.IsTrue()
    && !(ar.conds.executing.IsTrue() && ar.phase == Approved)
  }

  /** The lock is free, already ours, or has run out. */
  predicate Available(cfg: Config, leases: map<string, Lease>, n: string, t: int, spec: Spec) {
    var ln := LeaseName(cfg, spec.uri);
    ln !in leases || leases[ln].holder == HolderId(spec, n) || t > leases[ln].renewed + leases[ln].seconds * SECOND
  }

  /** It has waited for the lock longer than configured, a minute by default. */
  predicate WaitedOut(cfg: Config, t: int, spec: Spec) {
    t > spec.created + if cfg.lockWaitDuration > 0 then cfg.lockWaitDuration else 60 * SECOND
  }

  /** The approval on this list is older than configured, five minutes by default. */
  predicate Overdue(cfg: Config, cs: Conds, t: int) {
    cs.approved.Cond? && cs.approved.status && t > cs.approved.since + if cfg.approvedTimeout > 0 then cfg.approvedTimeout else 5 * MINUTE
  }

  /** Going for the lock ends in approval, in denial after too long a wait, or in waiting on. */
  function LockPhase(cfg: Config, leases: map<string, Lease>, n: string, t: int, spec: Spec): Phase {
    if Available(cfg, leases, n, t, spec) then Approved
    else if WaitedOut(cfg, t, spec) then Denied
    else Pending
  }

  function LockLeases(cfg: Config, leases: map<string, Lease>, n: string, t: int, spec: Spec): map<string, Lease> {
    if Available(cfg, leases, n, t, spec) && !Holds(cfg, leases, n, spec)
    then leases[LeaseName(cfg, spec.uri) := Lease(HolderId(spec, n), t, t, LeaseSeconds(cfg))]
    else leases
  }

  function Without(cfg: Config, leases: map<string, Lease>, n: string, spec: Spec): map<string, Lease> {
    if Holds(cfg, leases, n, spec) then leases - {LeaseName(cfg, spec.uri)} else leases
  }

  /** Nothing stands between this pending request and the lock. */
  predicate Cleared(ar: Request, result: Action) {
    if ar.conds.evaluated.IsTrue() then ar.conds.requiresApproval.IsTrue() ==> ar.human.Some? && ar.human.value.approve
    else result == Allow || result == Log
  }

  /** The policies or the human refuse it. */
  predicate TurnedDown(ar: Request, result: Action) {
    if ar.conds.evaluated.IsTrue()
    then ar.conds.requiresApproval.IsTrue() && ar.human.Some? && !ar.human.value.approve
    else result == Deny
  }

  function PendingAim(cfg: Config, leases: map<string, Lease>, n: string, t: int, ar: Request, result: Action): Phase {
    if Cleared(ar, result) then LockPhase(cfg, leases, n, t, ar.spec)
    else if TurnedDown(ar, result) then Denied
    else Pending
  }

  function InitialAim(spec: Spec, soak: bool): Phase {
    if spec.gatewayDenied then Denied
    else if spec.observe then Observed
    else if spec.cannotExecute || (spec.ref.Some? && soak) then AwaitingVerdict
    else Pending
  }

  /** An execution goes on as long as nobody holds its lock, or it does and in time. */
  predicate Undisturbed(cfg: Config, leases: map<string, Lease>, n: string, t: int, spec: Spec) {
    var ln := LeaseName(cfg, spec.uri);
    ln in leases ==> leases[ln].holder == HolderId(spec, n) && t <= leases[ln].renewed + leases[ln].seconds * SECOND
  }

  /** The phase that the unreported request `ar` is to reach. */
  function QuietAim(cfg: Config, leases: map<string, Lease>, n: string, t: int, ar: Request, result: Action, soak: bool): Phase {
    match ar.phase
    case Unset => if ar.conds.submitted.IsTrue() then Unset else InitialAim(ar.spec, soak)
    case Pending => PendingAim(cfg, leases, n, t, ar, result)
    case Approved => if Overdue(cfg, ar.conds, t) then Failed else Approved
    case Executing => if Undisturbed(cfg, leases, n, t, ar.spec) then Executing else Failed
    case AwaitingVerdict =>
      if ar.verdict.Some? then Completed else if t > ar.spec.created + 168 * HOUR then Expired else AwaitingVerdict
    case _ => ar.phase
  }

  /** What the leases are to be afterwards. */
  function QuietLeases(cfg: Config, leases: map<string, Lease>, n: string, t: int, ar: Request, result: Action): map<string, Lease> {
    match ar.phase
    case Pending => if Cleared(ar, result) then LockLeases(cfg, leases, n, t, ar.spec) else leases
    case Approved =>
      if !ar.conds.approved.IsTrue() then leases
      else if Overdue(cfg, ar.conds, t) then Without(cfg, leases, n, ar.spec)
      else Renewed(cfg, leases, n, t, ar.spec)
    case Executing => if Undisturbed(cfg, leases, n, t, ar.spec) then leases else Without(cfg, leases, n, ar.spec)
    case _ => leases
  }

  function Renewed(cfg: Config, leases: map<string, Lease>, n: string, t: int, spec: Spec): map<string, Lease> {
    var ln := LeaseName(cfg, spec.uri);
    if Holds(cfg, leases, n, spec) then leases[ln := leases[ln].(renewed := t)] else leases
  }

  /** The governed resource is the one the request was admitted under. */
  predicate Intact(spec: Spec, found: Option<int>) {
    spec.ref.Some? ==> found == Some(spec.ref.value.generation)
  }

  /** The phase a reconcile is to reach that fetched `ar` at time `t`. */
  function Aim(cfg: Config, leases: map<string, Lease>, n: string, t: int, ar: Request, found: Option<int>, result: Action,
               soak: bool): Phase
  {
    if !Intact(ar.spec, found) then Denied
    else if ar.conds.completed.IsTrue() then Completed
    else if ar.conds.failed.IsTrue() then Failed
    else if ar.conds.executing.IsTrue() && ar.phase == Approved then Executing
    else QuietAim(cfg, leases, n, t, ar, result, soak)
  }

  function AimLeases(cfg: Config, leases: map<string, Lease>, n: string, t: int, ar: Request, found: Option<int>, result: Action)
    : map<string, Lease>
  {
    if !Intact(ar.spec, found) || ar.conds.completed.IsTrue() || ar.conds.failed.IsTrue() then Without(cfg, leases, n, ar.spec)
    else if ar.conds.executing.IsTrue() && ar.phase == Approved then leases
    else QuietLeases(cfg, leases, n, t, ar, result)
  }

  // ---------- what it is to store and record ----------

  /** A condition that is to hold, or not to, from time `t` unless it does so already. */
  function Yes(c: Cond, t: int): Cond {
    if c.Cond? && c.status then c else Cond(true, t)
  }

  function No(c: Cond, t: int): Cond {
    if c.Cond? && !c.status then c else Cond(false, t)
  }

  /** The list that says the policies were evaluated, with this result. */
  function EvaluatedList(ar: Request, t: int, result: Action): Conds {
    ar.conds.(evaluated := Yes(ar.conds.evaluated, t), basis := Some(result))
  }

  /** What is stored of an evaluation that does not deny: a demand for approval is noted as open, or as met
      where the trust gate waives the human. */
  function NotedList(ar: Request, t: int, result: Action): Conds {
    var list := EvaluatedList(ar, t, result);
    if result != RequireApproval then list
    else if ar.spec.skipHuman then list.(approved := Yes(list.approved, t))
    else list.(requiresApproval := Yes(list.requiresApproval, t))
  }

  /** The list a cleared request goes for the lock with: the question, if there was one, is settled. */
  function ClearedList(ar: Request, t: int, result: Action): Conds {
    if !ar.conds.evaluated.IsTrue() then EvaluatedList(ar, t, result)
    else if ar.conds.requiresApproval.IsTrue() then ar.conds.(requiresApproval := Absent)
    else ar.conds
  }

  function LockList(list: Conds, won: bool, t: int): Conds {
    list.(approved := if won then Yes(list.approved, t) else No(list.approved, t))
  }

  function PendingList(cfg: Config, leases: map<string, Lease>, n: string, t: int, ar: Request, result: Action): Conds {
    if Cleared(ar, result) then LockList(ClearedList(ar, t, result), Available(cfg, leases, n, t, ar.spec), t)
    else LockList(if ar.conds.evaluated.IsTrue() then ar.conds else EvaluatedList(ar, t, result), false, t)
  }

  /** The list stored together with the new phase; None leaves the stored one alone. */
  function AimList(cfg: Config, leases: map<string, Lease>, n: string, t: int, ar: Request, found: Option<int>, result: Action)
    : Option<Conds>
  {
    if !Intact(ar.spec, found) || !Unreported(ar) then None
    else match ar.phase
      case Unset => Some(ar.conds.(submitted := Yes(ar.conds.submitted, t)))
      case Pending => Some(PendingList(cfg, leases, n, t, ar, result))
      case Approved => Some(ar.conds.(failed := Yes(ar.conds.failed, t)))
      case Executing => Some(ar.conds.(failed := Yes(ar.conds.failed, t)))
      case _ => None
  }

  /** The event that goes with entering a phase. */
  function EventFor(to: Phase): Event {
    match to
    case Approved => RequestApproved
    case Denied => RequestDenied
    case Executing => RequestExecuting
    case Completed => RequestCompleted
    case Failed => RequestFailed
    case Expired => RequestExpired
    case Observed => RequestObserved
    case _ => RequestSubmitted
  }

  /** The audit records of a reconcile that moves the request to `to`. */
  function AimKeys(cfg: Config, leases: map<string, Lease>, n: string, ar: Request, found: Option<int>, to: Phase): seq<AuditKey> {
    var main := AuditKey(n, EventFor(to), ar.phase, to);
    if !Intact(ar.spec, found) then [main]
    else if ar.conds.completed.IsTrue() || ar.conds.failed.IsTrue() then [main, AuditKey(n, LockReleased, Unset, Unset)]
    else match ar.phase
      case Approved => if to == Executing then [AuditKey(n, LockAcquired, Unset, Unset), main] else [main]
      case Executing =>
        [AuditKey(n, if Holds(cfg, leases, n, ar.spec) then HeartbeatTimeout else LockExpired, Executing, Failed), main]
      case AwaitingVerdict => if to == Completed then [AuditKey(n, VerdictSubmitted, AwaitingVerdict, Completed)] else [main]
      case _ => [main]
  }

  /** An overdue approval is to end, whatever lists were put back: the list says when it began. */
  lemma OverdueEnds(cfg: Config, t0: int, steps: seq<Step>, born: nat, budget: nat, life: nat, s: State, n: string,
                    found: Option<int>, result: Action, soak: bool)
    requires Books(cfg, t0, steps, born, budget, life, s) && n in s.entries
    requires s.entries[n].r.phase == Approved && Unsignaled(s.entries[n].r.conds) && s.entries[n].approvedAt.Some?
    requires s.now > s.entries[n].approvedAt.value + if cfg.approvedTimeout > 0 then cfg.approvedTimeout else 5 * MINUTE
    requires Intact(s.entries[n].r.spec, found)
    ensures Aim(cfg, s.leases, n, s.now, s.entries[n].r, found, result, soak) == Failed
    ensures AimLeases(cfg, s.leases, n, s.now, s.entries[n].r, found, result) == Without(cfg, s.leases, n, s.entries[n].r.spec)
  {
    hide Run, Inv, LeaseInv, Accounted, Without, Intact;
    RunKeeps(cfg, t0, steps);
    At(cfg, s, n);
    hide OriginSound, ApprovalSound, BarredSound, LossSound, DeletionSound, Sourced;
  }

  /** How the attempt to take the lock went. */
  datatype Outcome = Holder | Refused | Waits

  function Attempt(cfg: Config, leases: map<string, Lease>, n: string, t: int, spec: Spec): Outcome {
    if Available(cfg, leases, n, t, spec) then Holder
    else if WaitedOut(cfg, t, spec) then Refused
    else Waits
  }

  function After(b: Ctl, outcome: Outcome): Ctl
    requires b.Busy?
  {
    match outcome
    case Holder => Won(b)
    case Refused => GaveUpWaiting(b)
    case Waits => Idle
  }

  /** The API server's objects, the clock, and how many more API writes the controller process will
      live to make. `ctl` and `crashed` are bookkeeping: no method branches on them. */
  class Cluster {
    const cfg: Config
    var now: int
    var entries: map<string, Entry>
    var leases: map<string, Lease>
    var audits: map<string, AuditKey>
    var tokens: set<string>
    var tasks: map<nat, Task>
    var budget: nat
    var ctl: Ctl
    var crashed: bool
    ghost const t0: int
    ghost const born: nat
    ghost const life: nat
    ghost var steps: seq<Step>

    function Abs(): (s: State)
      reads this
      ensures s.ctl == ctl && s.entries == entries
    {
      State(now, entries, leases, audits, tokens, ctl, tasks, crashed)
    }

    /** The objects are what some run of the machine leaves. */
    ghost predicate Valid()
      reads this
    {
      Books(cfg, t0, steps, born, budget, life, Abs())
    }

    predicate InPhase(n: string, p: Phase)
      reads this
    {
      n in entries && entries[n].r.phase == p
    }

    /** The request is Approved, the agent has reported nothing, and the first approval of it is longer ago
        than configured, five minutes by default. */
    predicate OverdueApproval(n: string)
      reads this
    {
      && n in entries && entries[n].live && entries[n].r.phase == Approved && Unsignaled(entries[n].r.conds)
      && entries[n].approvedAt.Some?
      && now > entries[n].approvedAt.value + if cfg.approvedTimeout > 0 then cfg.approvedTimeout else 5 * MINUTE
    }

    /** What a reconcile that fetched `ar` at time `t`, with these leases, was to achieve: the phase and the
        leases, up to a deletion whose failure was logged; and from step `k` on, what it was to store and
        to record. */
    ghost predicate Achieved(k: nat, before: map<string, Lease>, n: string, t: int, ar: Request, found: Option<int>, result: Action,
                             soak: bool)
      reads this
    {
      && InPhase(n, Aim(cfg, before, n, t, ar, found, result, soak))
      && (|| leases == AimLeases(cfg, before, n, t, ar, found, result)
          || (ar.phase == Executing && leases == before && Logged(steps, k)))
      && (Aim(cfg, before, n, t, ar, found, result, soak) != ar.phase ==>
            AimDone(cfg, t0, steps, k, before, n, t, ar, found, result, soak))
      && (Intact(ar.spec, found) && Unreported(ar) && ar.phase == Pending && !ar.conds.evaluated.IsTrue() ==>
            EvaluationStored(cfg, t0, steps, k, n, t, ar, result))
    }

    lemma ReportedAchieved(k: nat, before: map<string, Lease>, n: string, t: int, ar: Request, found: Option<int>, result: Action, soak: bool)
      requires Intact(ar.spec, found) && !Unreported(ar)
      requires if ar.conds.completed.IsTrue()
               then InPhase(n, Completed) && leases == Without(cfg, before, n, ar.spec)
                    && Did(cfg, t0, steps, k, n, Completed, None,
                           [AuditKey(n, RequestCompleted, ar.phase, Completed), AuditKey(n, LockReleased, Unset, Unset)])
               else if ar.conds.failed.IsTrue()
               then InPhase(n, Failed) && leases == Without(cfg, before, n, ar.spec)
                    && Did(cfg, t0, steps, k, n, Failed, None,
                           [AuditKey(n, RequestFailed, ar.phase, Failed), AuditKey(n, LockReleased, Unset, Unset)])
               else InPhase(n, Executing) && leases == before
                    && Did(cfg, t0, steps, k, n, Executing, None,
                           [AuditKey(n, LockAcquired, Unset, Unset), AuditKey(n, RequestExecuting, Approved, Executing)])
      ensures Achieved(k, before, n, t, ar, found, result, soak)
    {
      hide Did, Without, Intact, InPhase;
    }

    lemma InitialAchieved(k: nat, n: string, t: int, ar: Request, found: Option<int>, result: Action, soak: bool)
      requires Intact(ar.spec, found) && Unreported(ar) && ar.phase == Unset && !ar.conds.submitted.IsTrue()
      requires var to := InitialAim(ar.spec, soak);
               && InPhase(n, to)
               && Did(cfg, t0, steps, k, n, to, Some(ar.conds.(submitted := Yes(ar.conds.submitted, t))), [AuditKey(n, EventFor(to), Unset, to)])
      ensures Achieved(k, leases, n, t, ar, found, result, soak)
    {
      hide Did, Intact, InPhase;
    }

    lemma QuietAchieved(k: nat, before: map<string, Lease>, n: string, t: int, ar: Request, found: Option<int>, result: Action, soak: bool)
      requires Intact(ar.spec, found) && Unreported(ar)
      requires InPhase(n, QuietAim(cfg, before, n, t, ar, result, soak))
      requires leases == QuietLeases(cfg, before, n, t, ar, result) || (ar.phase == Executing && leases == before && Logged(steps, k))
      requires QuietAim(cfg, before, n, t, ar, result, soak) != ar.phase ==> QuietDone(cfg, t0, steps, k, before, n, t, ar, result, soak)
      requires ar.phase == Pending && !ar.conds.evaluated.IsTrue() ==> EvaluationStored(cfg, t0, steps, k, n, t, ar, result)
      ensures Achieved(k, before, n, t, ar, found, result, soak)
    {
      hide Did, Intact, InPhase, QuietAim, QuietLeases, Logged, EvaluationStored, PendingList, Holds;
      WholeIntact(ar.spec);
    }

    lemma AchievedEnd(k: nat, before: map<string, Lease>, n: string, t: int, ar: Request, found: Option<int>, result: Action, soak: bool,
                      to: Phase, after: map<string, Lease>)
      requires Achieved(k, before, n, t, ar, found, result, soak) && ar.phase == Approved
      requires Aim(cfg, before, n, t, ar, found, result, soak) == to && AimLeases(cfg, before, n, t, ar, found, result) == after
      ensures InPhase(n, to) && leases == after
    {
    }

    /** The only reason why a controller function returns early: the process died, having had fewer writes
        left to live than the function may need. */
    ghost predicate ShortOf(had: nat, need: nat)
      reads this
    {
      JustDied(steps, budget) && had < need
    }

    /** The first controller process, on an empty cluster. */
    constructor (cfg: Config, t0: int, budget: nat)
      ensures Valid() && ctl == Idle && this.cfg == cfg && this.budget == budget
    {
      this.cfg, this.t0, this.budget := cfg, t0, budget;
      born, life := 0, budget;
      now, entries, leases, audits, tokens, tasks, ctl, crashed := t0, map[], map[], map[], {}, map[], Idle, false;
      steps := [];
    }

    /** A new process takes over the cluster where the last one stopped. */
    constructor Restart(last: Cluster, budget: nat)
      requires last.Valid() && last.ctl == Idle
      ensures Valid() && Abs() == last.Abs() && cfg == last.cfg && this.budget == budget
    {
      this.cfg, this.t0, this.budget := last.cfg, last.t0, budget;
      born, life := |last.steps|, budget;
      now, entries, leases, audits := last.now, last.entries, last.leases, last.audits;
      tokens, tasks, ctl, crashed := last.tokens, last.tasks, Idle, last.crashed;
      steps := last.steps;
      new;
      hide Run;
      assert Accounted(steps, born, budget, life);
    }

    // ---------- API calls ----------

    /** Enter a step in the books, once the objects are as it leaves them. */
    method Record(ghost was: State, a: Step)
      requires Books(cfg, t0, steps, born, budget, life, was)
      requires Abs() == Do(cfg, was, a) && (IsWrite(a) ==> budget > 0) && (a == Crash ==> budget == 0)
      modifies this`budget, this`steps
      ensures steps == old(steps) + [a] && old(steps) <= steps
      ensures budget == if IsWrite(a) then old(budget) - 1 else old(budget)
      ensures Valid()
    {
      hide Do, Books;
      OneMore(cfg, t0, steps, born, budget, life, was, a);
      budget := if IsWrite(a) then budget - 1 else budget;
      steps := steps + [a];
    }

    /** Some other client takes one step. */
    method OtherStep(a: Step)
      requires Valid() && Foreign(a)
      modifies this`now, this`entries, this`audits, this`tokens, this`tasks, this`crashed, this`steps, this`budget
      ensures budget == old(budget)
      ensures KeptPhases(old(entries), entries)
      ensures old(steps) <= steps
      ensures Valid()
    {
      hide Run, Do, KeptPhases, Books;
      ghost var was := Abs();
      var s := Do(cfg, Abs(), a);
      ForeignAside(cfg, was, a);
      now, entries, audits := s.now, s.entries, s.audits;
      tokens, tasks, crashed := s.tokens, s.tasks, s.crashed;
      Record(was, a);
    }

    /** Other clients at work. */
    method Meanwhile()
      requires Valid()
      modifies this
      ensures leases == old(leases) && ctl == old(ctl) && budget == old(budget) && old(steps) <= steps
      ensures KeptPhases(old(entries), entries)
      ensures Valid()
    {
      hide Run, Do, KeptPhases, Accounted, Abs;
      var others: seq<Step> := *;
      SamePhases(entries);
      for i := 0 to |others|
        invariant leases == old(leases) && ctl == old(ctl) && budget == old(budget) && old(steps) <= steps
        invariant KeptPhases(old(entries), entries)
        invariant Valid()
      {
        if Foreign(others[i]) {
          ghost var before := entries;
          OtherStep(others[i]);
          PhasesOn(old(entries), before, entries);
        }
      }
    }

    /** Every API write starts here: others may have been at work, and the process may die. */
    method Call(n: string) returns (ok: bool)
      requires Valid() && ctl.Busy?
      modifies this
      ensures leases == old(leases) && old(steps) <= steps
      ensures KeptPhase(old(entries), entries, n)
      ensures ctl == if ok then old(ctl) else Idle
      ensures if ok then budget > 0 && budget == old(budget) else ShortOf(old(budget), 1)
      ensures Valid()
    {
      hide Run, Do, KeptPhases, KeptPhase, Accounted, JustDied, Abs;
      Meanwhile();
      KeptOne(old(entries), entries, n);
      ok := budget > 0;
      if !ok { Die(); }
    }

    method Die()
      requires Valid() && ctl.Busy? && budget == 0
      modifies this`ctl, this`crashed, this`steps, this`budget
      ensures ctl == Idle && JustDied(steps, budget)
      ensures old(steps) <= steps
      ensures Valid()
    {
      hide Run, Do, JustDied, Books;
      ghost var was := Abs();
      ctl, crashed := Idle, true;
      CrashStep(cfg, was);
      DiedNow(steps);
      Record(was, Crash);
    }

    /** The status patch of a phase change. The in-memory object becomes what the server returns. */
    method PatchPhase(n: string, tr: Transition, read: Approval, ghost since: nat) returns (ok: bool, ar: Request)
      requires since <= |steps|
      requires Valid() && ctl.Busy? && ctl.n == n && ctl.pc == Moving(tr) && read == ReadBy(ctl)
      modifies this
      ensures budget + 1 >= old(budget)
      ensures leases == old(leases) && old(steps) <= steps
      ensures if ok then ctl == AfterMove(old(ctl), tr, ar) else ctl == Idle && ShortOf(old(budget), 1)
      ensures ok ==> InPhase(n, tr.to) && entries[n].r == ar && ar.spec == old(ctl).ar.spec
      ensures ok ==> PatchSince(cfg, t0, steps, since, n, tr.to, tr.conds)
      ensures Valid()
    {
      hide Do, Books, Abs, KeptPhase, AfterMove, JustDied, CommitMove, PatchSince;
      ar := ctl.ar;
      ok := Call(n);
      if ok {
        ghost var was := Abs();
        SpecKnown(cfg, t0, steps, born, budget, life, was);
        ok, ar := StorePhase(n, tr, read);
        MoveStep(cfg, was, tr);
        NowPatches(cfg, t0, steps, born, budget, life, was, since, n, tr.to, tr.conds);
        Record(was, StepAdvance);
      }
    }

    method StorePhase(n: string, tr: Transition, read: Approval) returns (ok: bool, ar: Request)
      requires ctl.Busy? && ctl.n == n && ctl.pc == Moving(tr) && read == ReadBy(ctl)
      modifies this`entries, this`ctl, this`crashed
      ensures ok <==> n in old(entries) && old(entries)[n].live
      ensures if ok then ctl == AfterMove(old(ctl), tr, ar) else ctl == Idle
      ensures ok ==> InPhase(n, tr.to) && entries[n].r == ar && n in old(entries) && ar.spec == old(entries)[n].r.spec
      ensures ok ==> ar.conds == if tr.conds.Some? then tr.conds.value else old(entries)[n].r.conds
      ensures Abs() == CommitMove(old(Abs()), old(ctl), tr)
    {
      hide AfterMove;
      ar := ctl.ar;
      ok := n in entries && entries[n].live;
      if !ok {
        ctl, crashed := Idle, true;
      } else {
        var e := Moved(entries[n], tr, read);
        ar := e.r;
        entries, ctl := entries[n := e], AfterMove(ctl, tr, ar);
      }
    }

    /** The status patch that stores an evaluation. */
    method PatchConds(n: string, conds: Conds, acquire: bool, ghost since: nat) returns (ok: bool, ar: Request)
      requires since <= |steps|
      requires Valid() && ctl.Busy? && ctl.n == n && ctl.pc == Noting(conds, acquire) && conds.basis.Some?
      modifies this
      ensures budget + 1 >= old(budget)
      ensures leases == old(leases) && old(steps) <= steps
      ensures ok ==> KeptPhase(old(entries), entries, n)
      ensures if ok then ctl == old(ctl).(pc := NotingAudit(acquire), ar := ar) else ctl == Idle && ShortOf(old(budget), 1)
      ensures ok ==> CommittedSince(cfg, t0, steps, since, n, conds.basis.value)
      ensures ok && n in old(entries) ==> PatchSince(cfg, t0, steps, since, n, old(entries)[n].r.phase, Some(conds))
      ensures ok ==> n in entries && entries[n].r == ar && ar.conds == conds && ar.spec == old(ctl).ar.spec
      ensures Valid()
    {
      hide Do, Books, Abs, KeptPhase, JustDied, CommittedSince, CommitNote, PatchSince;
      ar := ctl.ar;
      ok := Call(n);
      if ok {
        ghost var was, known := Abs(), entries;
        SpecKnown(cfg, t0, steps, born, budget, life, was);
        CommitsHere(was, n, conds, acquire);
        NowCommits(cfg, t0, steps, born, budget, life, was, since, n, conds.basis.value);
        NoteStep(cfg, was, conds, acquire);
        hide Stored, Commits;
        ok, ar := StoreConds(n, conds, acquire);
        PhaseOn(old(entries), known, entries, n);
        NowNotes(cfg, t0, steps, born, budget, life, was, since, n, conds, acquire, old(entries));
        Record(was, StepAdvance);
      }
    }

    method StoreConds(n: string, conds: Conds, acquire: bool) returns (ok: bool, ar: Request)
      requires ctl.Busy? && ctl.n == n && ctl.pc == Noting(conds, acquire)
      modifies this`entries, this`ctl, this`crashed
      ensures ok <==> n in old(entries) && old(entries)[n].live
      ensures ok ==> KeptPhase(old(entries), entries, n) && Stored(old(Abs()), n)
      ensures if ok then ctl == old(ctl).(pc := NotingAudit(acquire), ar := ar) else ctl == Idle
      ensures ok ==> entries[n].r == ar && ar.conds == conds && n in old(entries) && ar.spec == old(entries)[n].r.spec
      ensures Abs() == CommitNote(old(Abs()), old(ctl), conds, acquire)
    {
      ar := ctl.ar;
      ok := n in entries && entries[n].live;
      if !ok {
        ctl, crashed := Idle, true;
      } else {
        var e := Noted(entries[n], conds);
        ar := e.r;
        entries, ctl := entries[n := e], ctl.(pc := NotingAudit(acquire), ar := ar);
      }
    }

    /** Create an AuditRecord; AlreadyExists is success. */
    method CreateRecord(n: string, k: AuditKey, next: Ctl)
      requires k.request == n
      modifies this`entries, this`audits, this`ctl
      ensures ctl == next && KeptPhase(old(entries), entries, n)
      ensures Abs() == CreateAudit(cfg, old(Abs()), n, k).(ctl := next)
    {
      hide AuditName;
      var name := AuditName(cfg, k);
      if name !in audits && n in entries {
        entries, audits := entries[n := Recorded(entries[n], k)], audits[name := k];
      }
      ctl := next;
    }

    /** emitAuditRecord. */
    method EmitAuditRecord(n: string, event: Event, from: Phase, to: Phase, tr: Transition, k: nat, ghost since: nat) returns (ok: bool)
      requires since <= |steps|
      requires Valid() && ctl.Busy? && ctl.n == n && ctl.pc == Recording(tr, k)
      requires k < |tr.events| && KeyOf(n, tr, tr.events[k]) == AuditKey(n, event, from, to)
      modifies this
      ensures budget + 1 >= old(budget)
      ensures leases == old(leases) && old(steps) <= steps
      ensures KeptPhase(old(entries), entries, n)
      ensures ok ==> FiledSince(cfg, t0, steps, since, AuditKey(n, event, from, to))
      ensures if ok then ctl == AfterRecord(old(ctl), tr, k) else ctl == Idle && ShortOf(old(budget), 1)
      ensures Valid()
    {
      hide Do, Books, Abs, KeptPhase, JustDied, KeyOf, AfterRecord, CreateAudit, FiledSince;
      ok := Call(n);
      if ok {
        ghost var was := Abs();
        CreateRecord(n, AuditKey(n, event, from, to), AfterRecord(ctl, tr, k));
        RecordStep(cfg, was, tr, k);
        FilesRecord(cfg, t0, steps, born, budget, life, was, since, tr, k);
        PhaseOn(old(entries), was.entries, entries, n);
        Record(was, StepAdvance);
      }
    }

    /** releaseLock: a missing or foreign lease is left alone. */
    method ReleaseLock(n: string, spec: Spec, why: Loss, tr: Transition, next: Pc) returns (ok: bool)
      requires Valid() && ctl.Busy? && ctl.n == n && ctl.ar.spec == spec && why == GivenUp(ctl.t, Since(ctl.ar.conds))
      requires || (ctl.pc == Releasing(tr) && next == Moving(tr))
               || (ctl.pc == Cleaning(tr) && tr.cleanup == Cleanup.ReleaseLock && next == Recording(tr, 0))
      modifies this
      ensures budget + 1 >= old(budget)
      ensures old(steps) <= steps
      ensures KeptPhase(old(entries), entries, n)
      ensures if ok then ctl == Go(old(ctl), next) else ctl == Idle && ShortOf(old(budget), 1)
      ensures leases == if ok then Without(cfg, old(leases), n, spec) else old(leases)
      ensures Valid()
    {
      hide Do, Books, Abs, KeptPhase, JustDied, Since, Without, Released;
      ok := Call(n);
      if ok {
        ghost var was, known := Abs(), entries;
        DropOwnLease(n, spec, why, Go(ctl, next));
        ReleaseStep(cfg, was, tr, next);
        PhaseOn(old(entries), known, entries, n);
        Record(was, StepAdvance);
      }
    }

    method DropOwnLease(n: string, spec: Spec, why: Loss, next: Ctl)
      modifies this`entries, this`leases, this`ctl
      ensures ctl == next && KeptPhase(old(entries), entries, n)
      ensures leases == Without(cfg, old(leases), n, spec)
      ensures Abs() == Released(cfg, old(Abs()), n, spec, why).(ctl := next)
    {
      hide KeptPhase, MarkLost, LeaseName, HolderId;
      var ln := LeaseName(cfg, spec.uri);
      SamePhase(entries, n);
      if ln in leases && leases[ln].holder == HolderId(spec, n) {
        MarkLostPhase(cfg, entries, ln, leases[ln], why, n);
        entries, leases := MarkLost(cfg, entries, ln, leases[ln], why), leases - {ln};
      }
      ctl := next;
    }

    /** Delete an expired lease; a failure is only logged. */
    method DeleteExpiredLease(n: string, spec: Spec, why: Loss, tr: Transition, ghost since: nat) returns (ok: bool)
      requires since <= |steps|
      requires Valid() && ctl.Busy? && ctl.ar.spec == spec && why == GivenUp(ctl.t, Since(ctl.ar.conds))
      requires ctl.pc == Cleaning(tr) && tr.cleanup == DropLease
      modifies this
      ensures budget + 1 >= old(budget)
      ensures old(steps) <= steps
      ensures KeptPhase(old(entries), entries, n)
      ensures if ok then ctl == Go(old(ctl), Recording(tr, 0)) else ctl == Idle && ShortOf(old(budget), 1)
      ensures if ok then leases == old(leases) - {LeaseName(cfg, spec.uri)} || (leases == old(leases) && Logged(steps, since))
              else leases == old(leases)
      ensures Valid()
    {
      hide Do, Books, Abs, KeptPhase, JustDied, Since, LeaseName, RemoveLease, Logged;
      ok := Call(n);
      if !ok { return; }
      ghost var was, known := Abs(), entries;
      var fails: bool := *;
      if fails {
        DropFails(was, tr);
        LogsNow(steps, since);
        LogFailure(Go(ctl, Recording(tr, 0)));
      } else {
        DropLeaseNow(n, LeaseName(cfg, spec.uri), why, Go(ctl, Recording(tr, 0)));
        DropStep(cfg, was, tr);
        PhaseOn(old(entries), known, entries, n);
        Record(was, StepAdvance);
      }
    }

    method DropLeaseNow(n: string, ln: string, why: Loss, next: Ctl)
      modifies this`entries, this`leases, this`ctl
      ensures ctl == next && KeptPhase(old(entries), entries, n)
      ensures leases == old(leases) - {ln}
      ensures Abs() == RemoveLease(cfg, old(Abs()), ln, why).(ctl := next)
    {
      hide KeptPhase, MarkLost;
      SamePhase(entries, n);
      if ln in leases {
        MarkLostPhase(cfg, entries, ln, leases[ln], why, n);
        entries, leases := MarkLost(cfg, entries, ln, leases[ln], why), leases - {ln};
      }
      ctl := next;
    }

    /** A failed write that the controller only logs. */
    method LogFailure(next: Ctl)
      requires Valid() && budget > 0 && ctl.Busy? && Tolerate(Abs(), ctl) == Abs().(ctl := next)
      modifies this`ctl, this`steps, this`budget
      ensures ctl == next && budget == old(budget) - 1
      ensures old(steps) <= steps && steps == old(steps) + [StepTolerate]
      ensures Valid()
    {
      hide Do, Tolerate, Books;
      ghost var was := Abs();
      ctl := next;
      TolerateStep(cfg, was);
      Record(was, StepTolerate);
    }

    /** The policy.evaluated record; a failure is only logged. */
    method RecordEvaluation(n: string, acquire: bool, ghost since: nat) returns (ok: bool)
      requires since <= |steps|
      requires Valid() && ctl.Busy? && ctl.n == n && ctl.pc == NotingAudit(acquire)
      modifies this
      ensures budget + 1 >= old(budget)
      ensures leases == old(leases) && old(steps) <= steps
      ensures KeptPhase(old(entries), entries, n)
      ensures ctl == if ok && acquire then Go(old(ctl), Acquiring) else Idle
      ensures ok ==> FiledOrLogged(cfg, t0, steps, since, AuditKey(n, PolicyEvaluated, Pending, Unset))
      ensures !ok ==> ShortOf(old(budget), 1)
      ensures Valid()
    {
      hide Do, Books, Abs, KeptPhase, JustDied, CreateAudit, FiledSince, Logged;
      ok := Call(n);
      if !ok { return; }
      ghost var was := Abs();
      var next := if acquire then Go(ctl, Acquiring) else Idle;
      var fails: bool := *;
      if fails {
        EvaluationFails(was, acquire);
        LogsNow(steps, since);
        LogFailure(next);
      } else {
        CreateRecord(n, AuditKey(n, PolicyEvaluated, Pending, Unset), next);
        EvaluationStep(cfg, was, acquire);
        FilesEvaluation(cfg, t0, steps, born, budget, life, was, since, acquire);
        PhaseOn(old(entries), was.entries, entries, n);
        Record(was, StepAdvance);
      }
    }

    /** The heartbeat of an approved request's lease. */
    method Heartbeat(n: string, spec: Spec, t: int) returns (ok: bool)
      requires Valid() && ctl.Busy? && ctl.n == n && ctl.ar.spec == spec && ctl.t == t && ctl.pc == Renewing
      modifies this
      ensures budget + 1 >= old(budget)
      ensures ctl == Idle && old(steps) <= steps
      ensures KeptPhase(old(entries), entries, n)
      ensures leases == if ok then Renewed(cfg, old(leases), n, t, spec) else old(leases)
      ensures !ok ==> ShortOf(old(budget), 1)
      ensures Valid()
    {
      hide Do, Books, Abs, KeptPhase, JustDied, Renewed, Renew;
      ok := Call(n);
      if ok {
        ghost var was := Abs();
        RenewNow(n, spec, t);
        RenewStep(cfg, was);
        Record(was, StepAdvance);
      }
    }

    method RenewNow(n: string, spec: Spec, t: int)
      requires ctl.Busy? && ctl.n == n && ctl.ar.spec == spec && ctl.t == t
      modifies this`leases, this`ctl
      ensures ctl == Idle && leases == Renewed(cfg, old(leases), n, t, spec)
      ensures Abs() == Renew(cfg, old(Abs()), old(ctl))
    {
      hide LeaseName, HolderId;
      var ln := LeaseName(cfg, spec.uri);
      if ln in leases && leases[ln].holder == HolderId(spec, n) {
        leases := leases[ln := leases[ln].(renewed := t)];
      }
      ctl := Idle;
    }

    /** Bookkeeping: the reconcile has read what it needs and decides. */
    method Decide(result: Action, soak: bool)
      requires Valid() && ctl.Busy? && ctl.pc == Checked
      modifies this`ctl, this`steps, this`budget
      ensures ctl == Dispatch(cfg, leases, old(ctl), result, soak)
      ensures budget == old(budget)
      ensures Valid() && steps == old(steps) + [StepDispatch(result, soak)]
    {
      hide Run, Do, Dispatch, KeptPhase, JustDied, Books;
      ghost var was := Abs();
      ctl := Dispatch(cfg, leases, ctl, result, soak);
      DecideStep(cfg, was, result, soak);
      Record(was, StepDispatch(result, soak));
    }

    // ---------- controller functions ----------

    /** checkGovernedResourceIntegrity: a missing or changed resource denies the request. */
    method CheckGovernedResourceIntegrity(n: string, t: int, ar: Request, found: Option<int>, ghost since: nat)
      returns (ok: bool, denied: bool, seen: Option<int>)
      requires since <= |steps|
      requires Valid() && ctl == Busy(n, t, ar, None, Fetched)
      modifies this
      ensures budget + 3 >= old(budget)
      ensures denied <==> !Intact(ar.spec, found)
      ensures denied ==> ctl == Idle && if ok then InPhase(n, Denied) && leases == Without(cfg, old(leases), n, ar.spec) else ShortOf(old(budget), 3)
      ensures denied && ok ==> Did(cfg, t0, steps, since, n, Denied, None, [AuditKey(n, RequestDenied, ar.phase, Denied)])
      ensures !denied ==> ok && budget == old(budget) && ctl == Busy(n, t, ar, seen, Checked) && leases == old(leases) && entries == old(entries)
      ensures !denied ==> seen == if ar.spec.ref.Some? then found else None
      ensures Valid() && old(steps) + [StepCheckResource(found)] <= steps
    {
      hide Run, Do, Without, Books, PatchSince, FiledSince, Did;
      ghost var was := Abs();
      ctl := CheckResource(ctl, found);
      CheckStep(cfg, was, found);
      Record(was, StepCheckResource(found));
      ok, denied, seen := true, false, None;
      if ar.spec.ref.Some? {
        if found != Some(ar.spec.ref.value.generation) {
          denied := true;
          ok := DenyUnbound(n, t, ar, since);
          return;
        }
        seen := found;
      }
    }

    /** A phase change that ends the request: the patch, then the lock. */
    method PatchAndRelease(n: string, t: int, ar: Request, seen: Option<int>, tr: Transition, ghost since: nat) returns (ok: bool)
      requires since <= |steps|
      requires Valid() && ctl == Busy(n, t, ar, seen, Moving(tr)) && tr.cleanup == Cleanup.ReleaseLock
      modifies this
      ensures budget + 2 >= old(budget)
      ensures old(steps) <= steps
      ensures if ok then ctl.Busy? && ctl.n == n && ctl.pc == Recording(tr, 0) else ctl == Idle && ShortOf(old(budget), 2)
      ensures ok ==> PatchSince(cfg, t0, steps, since, n, tr.to, tr.conds)
      ensures ok ==> InPhase(n, tr.to) && leases == Without(cfg, old(leases), n, ar.spec)
      ensures Valid()
    {
      hide Valid, Abs, Run, Do, Since, Without, JustDied, PatchSince, FiledSince, Did;
      var ar';
      ok, ar' := PatchPhase(n, tr, Approval(seen, ar.human, ar.conds.basis), since);
      if !ok { return; }
      ghost var patched := steps;
      ok := ReleaseLock(n, ar'.spec, GivenUp(t, Since(ar'.conds)), tr, Recording(tr, 0));
      PatchOn(cfg, t0, patched, steps, since, since, n, tr.to, tr.conds);
    }

    /** The resource that admitted the request is gone or changed: patch, release, record. */
    method DenyUnbound(n: string, t: int, ar: Request, ghost since: nat) returns (ok: bool)
      requires since <= |steps|
      requires Valid() && ctl == Busy(n, t, ar, None, Moving(Transition(ar.phase, Denied, None, Cleanup.ReleaseLock, [RequestDenied])))
      modifies this
      ensures budget + 3 >= old(budget)
      ensures ctl == Idle && old(steps) <= steps
      ensures ok ==> Did(cfg, t0, steps, since, n, Denied, None, [AuditKey(n, RequestDenied, ar.phase, Denied)])
      ensures if ok then InPhase(n, Denied) && leases == Without(cfg, old(leases), n, ar.spec) else ShortOf(old(budget), 3)
      ensures Valid()
    {
      hide Valid, Abs, Run, Do, Since, Without, JustDied, PatchSince, FiledSince, Did;
      var tr := Transition(ar.phase, Denied, None, Cleanup.ReleaseLock, [RequestDenied]);
      ok := PatchAndRelease(n, t, ar, None, tr, since);
      if !ok { return; }
      ghost var patched := steps;
      ok := EmitAuditRecord(n, RequestDenied, ar.phase, Denied, tr, 0, since);
      if ok { DidOne(cfg, t0, patched, steps, since, n, Denied, None, AuditKey(n, RequestDenied, ar.phase, Denied)); }
    }

    /** The two records of a phase change. */
    method RecordTwo(n: string, tr: Transition, first: AuditKey, second: AuditKey, ghost since: nat) returns (ok: bool)
      requires since <= |steps|
      requires Valid() && ctl.Busy? && ctl.n == n && ctl.pc == Recording(tr, 0) && InPhase(n, tr.to) && |tr.events| == 2
      requires first == KeyOf(n, tr, tr.events[0]) && second == KeyOf(n, tr, tr.events[1])
      requires PatchSince(cfg, t0, steps, since, n, tr.to, tr.conds)
      modifies this
      ensures budget + 2 >= old(budget)
      ensures leases == old(leases) && ctl == Idle && old(steps) <= steps
      ensures ok ==> Did(cfg, t0, steps, since, n, tr.to, tr.conds, [first, second])
      ensures if ok then InPhase(n, tr.to) else ShortOf(old(budget), 2)
      ensures Valid()
    {
      hide Valid, Abs, Run, Do, JustDied, KeyOf, PatchSince, FiledSince, Did;
      KeyNames(n, tr, tr.events[0]);
      KeyNames(n, tr, tr.events[1]);
      ghost var patched := steps;
      ok := EmitAuditRecord(n, first.event, first.from, first.to, tr, 0, since);
      if !ok { return; }
      ghost var once := steps;
      DidOne(cfg, t0, patched, steps, since, n, tr.to, tr.conds, first);
      ok := EmitAuditRecord(n, second.event, second.from, second.to, tr, 1, since);
      if ok { DidTwo(cfg, t0, once, steps, since, n, tr.to, tr.conds, first, second); }
    }

    /** A phase change reported by the agent that ends the request: patch, release, two records. */
    method FinishReported(n: string, t: int, ar: Request, seen: Option<int>, to: Phase, event: Event, ghost since: nat) returns (ok: bool)
      requires since <= |steps|
      requires event == RequestCompleted || event == RequestFailed
      requires Valid() && ctl == Busy(n, t, ar, seen, Moving(Transition(ar.phase, to, None, Cleanup.ReleaseLock, [event, LockReleased])))
      modifies this
      ensures budget + 4 >= old(budget)
      ensures ctl == Idle && old(steps) <= steps
      ensures ok ==> Did(cfg, t0, steps, since, n, to, None, [AuditKey(n, event, ar.phase, to), AuditKey(n, LockReleased, Unset, Unset)])
      ensures if ok then InPhase(n, to) && leases == Without(cfg, old(leases), n, ar.spec) else ShortOf(old(budget), 4)
      ensures Valid()
    {
      hide Valid, Abs, Run, Do, Dispatch, Since, Without, JustDied, PatchSince, FiledSince, Did;
      var tr := Transition(ar.phase, to, None, Cleanup.ReleaseLock, [event, LockReleased]);
      ok := PatchAndRelease(n, t, ar, seen, tr, since);
      if !ok { return; }
      ok := RecordTwo(n, tr, AuditKey(n, event, ar.phase, to), AuditKey(n, LockReleased, Unset, Unset), since);
    }

    /** checkAgentTransitions. */
    method CheckAgentTransitions(n: string, t: int, ar: Request, seen: Option<int>, result: Action, soak: bool, ghost since: nat)
      returns (ok: bool, handled: bool)
      requires since <= |steps|
      requires Valid() && ctl == Busy(n, t, ar, seen, Checked)
      modifies this
      ensures budget + 4 >= old(budget)
      ensures handled ==> old(steps) + [StepDispatch(result, soak)] <= steps && ctl == Idle
      ensures handled ==>
                if !ok then ShortOf(old(budget), 4)
                else if ar.conds.completed.IsTrue() then InPhase(n, Completed) && leases == Without(cfg, old(leases), n, ar.spec)
                else if ar.conds.failed.IsTrue() then InPhase(n, Failed) && leases == Without(cfg, old(leases), n, ar.spec)
                else InPhase(n, Executing) && leases == old(leases)
      ensures handled && ok ==>
                if ar.conds.completed.IsTrue()
                then Did(cfg, t0, steps, since, n, Completed, None,
                         [AuditKey(n, RequestCompleted, ar.phase, Completed), AuditKey(n, LockReleased, Unset, Unset)])
                else if ar.conds.failed.IsTrue()
                then Did(cfg, t0, steps, since, n, Failed, None,
                         [AuditKey(n, RequestFailed, ar.phase, Failed), AuditKey(n, LockReleased, Unset, Unset)])
                else Did(cfg, t0, steps, since, n, Executing, None,
                         [AuditKey(n, LockAcquired, Unset, Unset), AuditKey(n, RequestExecuting, Approved, Executing)])
      ensures !handled ==> ok && budget == old(budget) && ctl == old(ctl) && leases == old(leases) && entries == old(entries) && steps == old(steps)
      ensures Valid() && (handled <==> !Unreported(ar))
    {
      hide Valid, Abs, Run, Do, Without, JustDied, PatchSince, FiledSince, Did;
      ok, handled := true, true;
      if ar.conds.completed.IsTrue() {
        Decide(result, soak);
        ok := FinishReported(n, t, ar, seen, Completed, RequestCompleted, since);
      } else if ar.conds.failed.IsTrue() {
        Decide(result, soak);
        ok := FinishReported(n, t, ar, seen, Failed, RequestFailed, since);
      } else if ar.conds.executing.IsTrue() && ar.phase == Approved {
        Decide(result, soak);
        ok := StartReported(n, t, ar, seen, since);
      } else {
        handled := false;
      }
    }

    /** The agent has started executing. */
    method StartReported(n: string, t: int, ar: Request, seen: Option<int>, ghost since: nat) returns (ok: bool)
      requires since <= |steps|
      requires Valid() && ctl == Busy(n, t, ar, seen, Moving(Transition(Approved, Executing, None, NoCleanup, [LockAcquired, RequestExecuting])))
      modifies this
      ensures budget + 3 >= old(budget)
      ensures leases == old(leases) && ctl == Idle && old(steps) <= steps
      ensures ok ==> Did(cfg, t0, steps, since, n, Executing, None,
                         [AuditKey(n, LockAcquired, Unset, Unset), AuditKey(n, RequestExecuting, Approved, Executing)])
      ensures if ok then InPhase(n, Executing) else ShortOf(old(budget), 3)
      ensures Valid()
    {
      hide Valid, Abs, Run, Do, Dispatch, JustDied, PatchSince, FiledSince, Did;
      var tr := Transition(Approved, Executing, None, NoCleanup, [LockAcquired, RequestExecuting]);
      var ar';
      ok, ar' := PatchPhase(n, tr, Approval(seen, ar.human, ar.conds.basis), since);
      if !ok { return; }
      ok := RecordTwo(n, tr, AuditKey(n, LockAcquired, Unset, Unset), AuditKey(n, RequestExecuting, Approved, Executing), since);
    }

    /** A phase change that is one patch and one record. */
    method Settle(n: string, t: int, ar: Request, seen: Option<int>, tr: Transition, event: Event, ghost since: nat) returns (ok: bool)
      requires since <= |steps|
      requires Valid() && ctl == Busy(n, t, ar, seen, Moving(tr)) && tr.cleanup == NoCleanup && tr.events == [event]
      requires event != LockAcquired && event != LockReleased && event != PolicyEvaluated
      modifies this
      ensures budget + 2 >= old(budget)
      ensures leases == old(leases) && ctl == Idle && old(steps) <= steps
      ensures ok ==> Did(cfg, t0, steps, since, n, tr.to, tr.conds, [AuditKey(n, event, tr.from, tr.to)])
      ensures if ok then InPhase(n, tr.to) else ShortOf(old(budget), 2)
      ensures Valid()
    {
      hide Valid, Abs, Run, Do, Dispatch, JustDied, PatchSince, FiledSince, Did;
      var ar';
      ok, ar' := PatchPhase(n, tr, Approval(seen, ar.human, ar.conds.basis), since);
      if !ok { return; }
      ghost var patched := steps;
      ok := EmitAuditRecord(n, event, tr.from, tr.to, tr, 0, since);
      if ok { DidOne(cfg, t0, patched, steps, since, n, tr.to, tr.conds, AuditKey(n, event, tr.from, tr.to)); }
    }

    /** initializePhase. */
    method InitializePhase(n: string, t: int, ar: Request, seen: Option<int>, result: Action, soak: bool, ghost since: nat)
      returns (ok: bool, handled: bool)
      requires since <= |steps|
      requires Valid() && ctl == Busy(n, t, ar, seen, Checked) && Unreported(ar)
      modifies this
      ensures budget + 2 >= old(budget)
      ensures leases == old(leases)
      ensures handled ==> old(steps) + [StepDispatch(result, soak)] <= steps && ctl == Idle
      ensures handled ==> if ok then InPhase(n, InitialAim(ar.spec, soak)) else ShortOf(old(budget), 2)
      ensures handled && ok ==>
                var to := InitialAim(ar.spec, soak);
                Did(cfg, t0, steps, since, n, to, Some(ar.conds.(submitted := Yes(ar.conds.submitted, t))), [AuditKey(n, EventFor(to), Unset, to)])
      ensures !handled ==> ok && budget == old(budget) && ctl == old(ctl) && entries == old(entries) && steps == old(steps)
      ensures Valid() && (!handled <==> ar.phase != Unset || ar.conds.submitted.IsTrue())
    {
      hide Dispatch, Valid, Abs, Run, Do, JustDied, PatchSince, FiledSince, Did;
      ok := true;
      if ar.phase != Unset || ar.conds.submitted.IsTrue() { return ok, false; }
      handled := true;
      DispatchesFirst(cfg, leases, ctl, result, soak);
      Decide(result, soak);
      var cs := ar.conds.(submitted := ar.conds.submitted.Set(true, t));
      if ar.spec.gatewayDenied {
        ok := Settle(n, t, ar, seen, Transition(Unset, Denied, Some(cs), NoCleanup, [RequestDenied]), RequestDenied, since);
      } else if ar.spec.observe {
        ok := Settle(n, t, ar, seen, Transition(Unset, Observed, Some(cs), NoCleanup, [RequestObserved]), RequestObserved, since);
      } else {
        var phase := Pending;
        if ar.spec.cannotExecute {
          phase := AwaitingVerdict;
        } else if ar.spec.ref.Some? {
          if soak { phase := AwaitingVerdict; }
        }
        ok := Settle(n, t, ar, seen, Transition(Unset, phase, Some(cs), NoCleanup, [RequestSubmitted]), RequestSubmitted, since);
      }
    }

    /** handleLockAcquisition: create the lease, take over an expired one, give up or wait. */
    method HandleLockAcquisition(n: string, t: int, ar: Request, seen: Option<int>, ghost since: nat) returns (ok: bool)
      requires since <= |steps|
      requires Valid() && ctl == Busy(n, t, ar, seen, Acquiring) && InPhase(n, Pending)
      modifies this
      ensures budget + 3 >= old(budget)
      ensures ctl == Idle && old(steps) <= steps
      ensures ok ==> InPhase(n, LockPhase(cfg, old(leases), n, t, ar.spec)) && leases == LockLeases(cfg, old(leases), n, t, ar.spec)
      ensures ok && LockPhase(cfg, old(leases), n, t, ar.spec) != Pending ==>
                var to := LockPhase(cfg, old(leases), n, t, ar.spec);
                Did(cfg, t0, steps, since, n, to, Some(LockList(ar.conds, Available(cfg, old(leases), n, t, ar.spec), t)),
                    [AuditKey(n, if to == Approved then RequestApproved else RequestDenied, Pending, to)])
      ensures !ok ==> ShortOf(old(budget), 3)
      ensures Valid()
    {
      hide Valid, Abs, Run, Do, LockLeases, Available, JustDied, LockWait, PatchSince, FiledSince, Did, WaitedOut;
      var outcome;
      ok, outcome := AcquireLease(n, t, ar);
      if !ok || outcome == Waits { return; }
      if outcome == Refused {
        var cs := ar.conds.(approved := ar.conds.approved.Set(false, t));
        ok := Settle(n, t, ar, seen, Transition(Pending, Denied, Some(cs), NoCleanup, [RequestDenied]), RequestDenied, since);
      } else {
        var cs := ar.conds.(approved := ar.conds.approved.Set(true, t));
        ok := Settle(n, t, ar, seen, Transition(Pending, Approved, Some(cs), NoCleanup, [RequestApproved]), RequestApproved, since);
      }
    }

    /** The lease part of handleLockAcquisition. */
    method AcquireLease(n: string, t: int, ar: Request) returns (ok: bool, outcome: Outcome)
      requires Valid() && ctl.Busy? && ctl.n == n && ctl.t == t && ctl.ar == ar && ctl.pc == Acquiring
      modifies this
      ensures budget + 1 >= old(budget)
      ensures old(steps) <= steps
      ensures KeptPhase(old(entries), entries, n)
      ensures !ok ==> ctl == Idle && leases == old(leases) && ShortOf(old(budget), 1)
      ensures ok ==> outcome == Attempt(cfg, old(leases), n, t, ar.spec) && ctl == After(old(ctl), outcome)
      ensures ok ==> leases == LockLeases(cfg, old(leases), n, t, ar.spec)
      ensures Valid()
    {
      hide Do, Books, Abs, KeptPhase, JustDied, LockLeases, Attempt, After, Acquire;
      outcome := Waits;
      ok := Call(n);
      if ok {
        ghost var was, known := Abs(), entries;
        outcome := TakeLeaseNow(n, t, ar);
        AcquireStep(cfg, was);
        PhaseOn(old(entries), known, entries, n);
        Record(was, StepAdvance);
      }
    }

    method TakeLeaseNow(n: string, t: int, ar: Request) returns (outcome: Outcome)
      requires ctl.Busy? && ctl.n == n && ctl.t == t && ctl.ar == ar
      modifies this`entries, this`leases, this`ctl
      ensures KeptPhase(old(entries), entries, n)
      ensures outcome == Attempt(cfg, old(leases), n, t, ar.spec) && ctl == After(old(ctl), outcome)
      ensures leases == LockLeases(cfg, old(leases), n, t, ar.spec)
      ensures Abs() == Acquire(cfg, old(Abs()), old(ctl))
    {
      hide KeptPhase, Won, GaveUpWaiting, LeaseName, HolderId, MarkLost;
      SamePhase(entries, n);
      var ln, own := LeaseName(cfg, ar.spec.uri), OwnLease(cfg, n, ar.spec, t);
      outcome := Waits;
      if ln !in leases {
        leases, outcome := leases[ln := own], Holder;
      } else if leases[ln].holder == HolderId(ar.spec, n) {
        outcome := Holder;
      } else if LeaseExpired(leases[ln], t) {
        var why := Lapsed(t, leases[ln].renewed, leases[ln].seconds);
        MarkLostPhase(cfg, entries, ln, leases[ln], why, n);
        entries := MarkLost(cfg, entries, ln, leases[ln], why);
        leases, outcome := leases[ln := own], Holder;
      } else if ar.spec.created < t - LockWait(cfg) {
        outcome := Refused;
      }
      ctl := After(ctl, outcome);
    }

    /** handleApprovalWait. */
    method HandleApprovalWait(n: string, t: int, ar: Request, seen: Option<int>, result: Action, soak: bool, ghost since: nat) returns (ok: bool)
      requires since <= |steps|
      requires Valid() && ctl == Busy(n, t, ar, seen, Checked) && Unreported(ar) && InPhase(n, Pending)
      requires ar.phase == Pending && ar.conds.evaluated.IsTrue() && ar.conds.requiresApproval.IsTrue()
      modifies this
      ensures budget + 3 >= old(budget)
      ensures ctl == Idle
      ensures ar.human.None? ==> ok && entries == old(entries) && leases == old(leases) && audits == old(audits)
      ensures ok && ar.human.Some? ==>
                if ar.human.value.approve
                then InPhase(n, LockPhase(cfg, old(leases), n, t, ar.spec)) && leases == LockLeases(cfg, old(leases), n, t, ar.spec)
                else InPhase(n, Denied) && leases == old(leases)
      ensures ok && ar.human.Some? && PendingAim(cfg, old(leases), n, t, ar, result) != Pending ==>
                PendingDone(cfg, t0, steps, since, old(leases), n, t, ar, result)
      ensures !ok ==> ShortOf(old(budget), 3)
      ensures Valid() && old(steps) + [StepDispatch(result, soak)] <= steps
    {
      hide Valid, Abs, Run, Do, LockPhase, LockLeases, JustDied, PatchSince, FiledSince, Did, Available;
      Decide(result, soak);
      ok := true;
      if ar.human.Some? {
        if ar.human.value.approve {
          ok := HandleLockAcquisition(n, t, ar.(conds := ar.conds.(requiresApproval := Absent)), seen, since);
        } else {
          var cs := ar.conds.(approved := ar.conds.approved.Set(false, t));
          ok := Settle(n, t, ar, seen, Transition(Pending, Denied, Some(cs), NoCleanup, [RequestDenied]), RequestDenied, since);
        }
      }
    }

    /** handleEvaluationResult for a denial. */
    method DenyEvaluated(n: string, t: int, ar: Request, seen: Option<int>, cs: Conds, ghost since: nat) returns (ok: bool)
      requires since <= |steps|
      requires Valid()
      requires ctl == Busy(n, t, ar, seen, Moving(Transition(Pending, Denied, Some(cs), NoCleanup, [PolicyEvaluated, RequestDenied])))
      modifies this
      ensures budget + 3 >= old(budget)
      ensures leases == old(leases) && ctl == Idle && old(steps) <= steps
      ensures ok ==> Did(cfg, t0, steps, since, n, Denied, Some(cs), [AuditKey(n, RequestDenied, Pending, Denied)])
      ensures ok ==> FiledOrLogged(cfg, t0, steps, since, AuditKey(n, PolicyEvaluated, Pending, Unset))
      ensures if ok then InPhase(n, Denied) else ShortOf(old(budget), 3)
      ensures Valid()
    {
      hide Valid, Abs, Run, Do, Dispatch, JustDied, PatchSince, FiledSince, Did, FiledOrLogged;
      var tr := Transition(Pending, Denied, Some(cs), NoCleanup, [PolicyEvaluated, RequestDenied]);
      var ar';
      ok, ar' := PatchPhase(n, tr, Approval(seen, ar.human, ar.conds.basis), since);
      if !ok { return; }
      ghost var patched := steps;
      ok := RecordDenialEvaluation(n, tr, since);
      if !ok { return; }
      ghost var noted := steps;
      ok := EmitAuditRecord(n, RequestDenied, Pending, Denied, tr, 1, since);
      if ok {
        DidOne(cfg, t0, patched, steps, since, n, Denied, Some(cs), AuditKey(n, RequestDenied, Pending, Denied));
        NotedOn(cfg, t0, noted, steps, since, since, AuditKey(n, PolicyEvaluated, Pending, Unset));
      }
    }

    /** The policy.evaluated record of a denial; a failure is only logged. */
    method RecordDenialEvaluation(n: string, tr: Transition, ghost since: nat) returns (ok: bool)
      requires since <= |steps|
      requires Valid() && ctl.Busy? && ctl.n == n && ctl.pc == Recording(tr, 0)
      requires tr.events == [PolicyEvaluated, RequestDenied] && tr.from == Pending
      modifies this
      ensures budget + 1 >= old(budget)
      ensures leases == old(leases) && old(steps) <= steps
      ensures KeptPhase(old(entries), entries, n)
      ensures ok ==> FiledOrLogged(cfg, t0, steps, since, AuditKey(n, PolicyEvaluated, Pending, Unset))
      ensures if ok then ctl == Go(old(ctl), Recording(tr, 1)) else ctl == Idle && ShortOf(old(budget), 1)
      ensures Valid()
    {
      hide Do, Books, Abs, KeptPhase, JustDied, Tolerate, FiledSince, Logged;
      var fails: bool := *;
      if fails {
        ok := Call(n);
        if ok {
          DenialFails(Abs(), tr);
          LogsNow(steps, since);
          LogFailure(Go(ctl, Recording(tr, 1)));
        }
      } else {
        ok := EmitAuditRecord(n, PolicyEvaluated, Pending, Unset, tr, 0, since);
      }
    }

    /** handleEvaluationResult: one patch commits the evaluation and what follows from it. */
    method HandleEvaluationResult(n: string, t: int, ar: Request, seen: Option<int>, result: Action, soak: bool, ghost since: nat) returns (ok: bool)
      requires since <= |steps|
      requires Valid() && ctl == Busy(n, t, ar, seen, Checked) && Unreported(ar) && InPhase(n, Pending)
      requires ar.phase == Pending && !ar.conds.evaluated.IsTrue()
      modifies this
      ensures budget + 5 >= old(budget)
      ensures ctl == Idle
      ensures ok && result != Deny ==> CommittedSince(cfg, t0, steps, since, n, result)
      ensures ok ==> InPhase(n, PendingAim(cfg, old(leases), n, t, ar, result))
      ensures ok ==> leases == if Cleared(ar, result) then LockLeases(cfg, old(leases), n, t, ar.spec) else old(leases)
      ensures ok && result != Deny ==> PatchSince(cfg, t0, steps, since, n, Pending, Some(NotedList(ar, t, result)))
      ensures ok ==> FiledOrLogged(cfg, t0, steps, since, AuditKey(n, PolicyEvaluated, Pending, Unset))
      ensures ok && PendingAim(cfg, old(leases), n, t, ar, result) != Pending ==>
                PendingDone(cfg, t0, steps, since, old(leases), n, t, ar, result)
      ensures !ok ==> ShortOf(old(budget), 5)
      ensures Valid() && old(steps) + [StepDispatch(result, soak)] <= steps
    {
      hide Valid, Abs, Run, Do, LockPhase, LockLeases, JustDied, CommittedSince, PatchSince, FiledSince, Did, FiledOrLogged, Available;
      Decide(result, soak);
      var cs := ar.conds.(evaluated := ar.conds.evaluated.Set(true, t), basis := Some(result));
      if result == Deny {
        ok := DenyEvaluated(n, t, ar, seen, cs.(approved := cs.approved.Set(false, t)), since);
        return;
      }
      if result == RequireApproval {
        cs := if ar.spec.skipHuman then cs.(approved := cs.approved.Set(true, t))
              else cs.(requiresApproval := cs.requiresApproval.Set(true, t));
      }
      ok := FollowEvaluation(n, t, ar, seen, result, cs, since);
    }

    /** handleEvaluationResult for any other result: the patch, the record and the lock. */
    method FollowEvaluation(n: string, t: int, ar: Request, seen: Option<int>, result: Action, cs: Conds, ghost since: nat) returns (ok: bool)
      requires since <= |steps|
      requires Valid() && ctl == Busy(n, t, ar, seen, Noting(cs, result != RequireApproval)) && InPhase(n, Pending)
      requires result != Deny && cs.basis == Some(result)
      modifies this
      ensures budget + 5 >= old(budget)
      ensures ctl == Idle && old(steps) <= steps
      ensures ok ==> CommittedSince(cfg, t0, steps, since, n, result) && PatchSince(cfg, t0, steps, since, n, Pending, Some(cs))
      ensures ok ==> FiledOrLogged(cfg, t0, steps, since, AuditKey(n, PolicyEvaluated, Pending, Unset))
      ensures ok && result == RequireApproval ==> InPhase(n, Pending) && leases == old(leases)
      ensures ok && result != RequireApproval ==>
                InPhase(n, LockPhase(cfg, old(leases), n, t, ar.spec)) && leases == LockLeases(cfg, old(leases), n, t, ar.spec)
      ensures ok && result != RequireApproval && LockPhase(cfg, old(leases), n, t, ar.spec) != Pending ==>
                var to := LockPhase(cfg, old(leases), n, t, ar.spec);
                Did(cfg, t0, steps, since, n, to, Some(LockList(cs, Available(cfg, old(leases), n, t, ar.spec), t)),
                    [AuditKey(n, if to == Approved then RequestApproved else RequestDenied, Pending, to)])
      ensures !ok ==> ShortOf(old(budget), 5)
      ensures Valid()
    {
      hide Valid, Abs, Run, Do, LockPhase, LockLeases, LockList, JustDied, CommittedSince, PatchSince, FiledSince, Did, FiledOrLogged, Available;
      var acquire := result != RequireApproval;
      var ar';
      ok, ar' := PatchConds(n, cs, acquire, since);
      if !ok { return; }
      ghost var stored := steps;
      ok := RecordEvaluation(n, acquire, since);
      ghost var noted := steps;
      if ok && acquire { ok := HandleLockAcquisition(n, t, ar', seen, since); }
      StillCommitted(cfg, t0, stored, steps, since, n, result);
      PatchOn(cfg, t0, stored, steps, since, since, n, Pending, Some(cs));
      if ok { NotedOn(cfg, t0, noted, steps, since, since, AuditKey(n, PolicyEvaluated, Pending, Unset)); }
    }

    /** reconcilePending. */
    method ReconcilePending(n: string, t: int, ar: Request, seen: Option<int>, result: Action, soak: bool, ghost since: nat) returns (ok: bool)
      requires since <= |steps|
      requires Valid() && ctl == Busy(n, t, ar, seen, Checked) && Unreported(ar) && ar.phase == Pending && InPhase(n, Pending)
      modifies this
      ensures budget + 5 >= old(budget)
      ensures ctl == Idle
      ensures ok && !ar.conds.evaluated.IsTrue() && result != Deny ==> CommittedSince(cfg, t0, steps, since, n, result)
      ensures ok ==> InPhase(n, PendingAim(cfg, old(leases), n, t, ar, result))
      ensures ok ==> leases == if Cleared(ar, result) then LockLeases(cfg, old(leases), n, t, ar.spec) else old(leases)
      ensures ok && PendingAim(cfg, old(leases), n, t, ar, result) != Pending ==>
                PendingDone(cfg, t0, steps, since, old(leases), n, t, ar, result)
      ensures ok && !ar.conds.evaluated.IsTrue() ==>
                && (result != Deny ==> PatchSince(cfg, t0, steps, since, n, Pending, Some(NotedList(ar, t, result))))
                && FiledOrLogged(cfg, t0, steps, since, AuditKey(n, PolicyEvaluated, Pending, Unset))
      ensures !ok ==> ShortOf(old(budget), 5)
      ensures Valid() && old(steps) + [StepDispatch(result, soak)] <= steps
    {
      hide Valid, Abs, Run, Do, LockPhase, LockLeases, JustDied, CommittedSince, PatchSince, FiledSince, Did, FiledOrLogged, Available;
      if ar.conds.evaluated.IsTrue() {
        if ar.conds.requiresApproval.IsTrue() {
          ok := HandleApprovalWait(n, t, ar, seen, result, soak, since);
        } else {
          Decide(result, soak);
          ok := HandleLockAcquisition(n, t, ar, seen, since);
        }
      } else {
        ok := HandleEvaluationResult(n, t, ar, seen, result, soak, since);
      }
    }

    /** reconcileApproved: heartbeat within the approval window, release and fail after it. */
    method ReconcileApproved(n: string, t: int, ar: Request, seen: Option<int>, result: Action, soak: bool, ghost since: nat) returns (ok: bool)
      requires since <= |steps|
      requires Valid() && ctl == Busy(n, t, ar, seen, Checked) && Unreported(ar) && ar.phase == Approved && InPhase(n, Approved)
      modifies this
      ensures budget + 3 >= old(budget)
      ensures ctl == Idle
      ensures !ar.conds.approved.IsTrue() ==> ok && entries == old(entries) && audits == old(audits)
      ensures ok ==> InPhase(n, if Overdue(cfg, ar.conds, t) then Failed else Approved)
      ensures ok && Overdue(cfg, ar.conds, t) ==>
                Did(cfg, t0, steps, since, n, Failed, Some(ar.conds.(failed := Yes(ar.conds.failed, t))),
                    [AuditKey(n, RequestFailed, Approved, Failed)])
      ensures ok ==> leases == QuietLeases(cfg, old(leases), n, t, ar, result)
      ensures !ok ==> ShortOf(old(budget), 3)
      ensures Valid() && old(steps) + [StepDispatch(result, soak)] <= steps
    {
      hide Valid, Abs, Run, Do, Without, Renewed, JustDied, PatchSince, FiledSince, Did;
      Decide(result, soak);
      ok := true;
      if !ar.conds.approved.IsTrue() { return; }
      if t <= ar.conds.approved.since + ApprovedTimeout(cfg) {
        ok := Heartbeat(n, ar.spec, t);
        return;
      }
      var cs := ar.conds.(failed := ar.conds.failed.Set(true, t));
      var tr := Transition(Approved, Failed, Some(cs), NoCleanup, [RequestFailed]);
      ok := ReleaseLock(n, ar.spec, GivenUp(t, Since(ar.conds)), tr, Moving(tr));
      if !ok { return; }
      ok := Settle(n, t, ar, seen, tr, RequestFailed, since);
    }

    /** reconcileExecuting: the lease is looked at, never renewed; deleting it when it has run out may fail. */
    method ReconcileExecuting(n: string, t: int, ar: Request, seen: Option<int>, result: Action, soak: bool, ghost since: nat) returns (ok: bool)
      requires since <= |steps|
      requires Valid() && ctl == Busy(n, t, ar, seen, Checked) && Unreported(ar) && ar.phase == Executing && InPhase(n, Executing)
      modifies this
      ensures budget + 4 >= old(budget)
      ensures ctl == Idle
      ensures Undisturbed(cfg, old(leases), n, t, ar.spec) ==>
                ok && entries == old(entries) && leases == old(leases) && audits == old(audits)
      ensures ok ==> InPhase(n, if Undisturbed(cfg, old(leases), n, t, ar.spec) then Executing else Failed)
      ensures ok ==> leases == QuietLeases(cfg, old(leases), n, t, ar, result) || (leases == old(leases) && Logged(steps, since))
      ensures ok && !Undisturbed(cfg, old(leases), n, t, ar.spec) ==>
                Did(cfg, t0, steps, since, n, Failed, Some(ar.conds.(failed := Yes(ar.conds.failed, t))),
                    [AuditKey(n, if Holds(cfg, old(leases), n, ar.spec) then HeartbeatTimeout else LockExpired, Executing, Failed),
                     AuditKey(n, RequestFailed, Executing, Failed)])
      ensures !ok ==> ShortOf(old(budget), 4)
      ensures Valid() && old(steps) + [StepDispatch(result, soak)] <= steps
    {
      hide Valid, Abs, Run, Do, LeaseName, HolderId, JustDied, PatchSince, FiledSince, Did, Logged;
      var ln := LeaseName(cfg, ar.spec.uri);
      Decide(result, soak);
      ok := true;
      if ln !in leases { return; }
      var cs := ar.conds.(failed := ar.conds.failed.Set(true, t));
      if leases[ln].holder != HolderId(ar.spec, n) {
        ok := FailExecuting(n, t, ar, seen, Transition(Executing, Failed, Some(cs), NoCleanup, [LockExpired, RequestFailed]), since);
      } else if LeaseExpired(leases[ln], t) {
        ok := FailExecuting(n, t, ar, seen, Transition(Executing, Failed, Some(cs), DropLease, [HeartbeatTimeout, RequestFailed]), since);
      }
    }

    /** An execution whose lease is lost or has run out. */
    method FailExecuting(n: string, t: int, ar: Request, seen: Option<int>, tr: Transition, ghost since: nat) returns (ok: bool)
      requires since <= |steps|
      requires Valid() && ctl == Busy(n, t, ar, seen, Moving(tr)) && tr.from == Executing && tr.to == Failed
      requires tr.cleanup != Cleanup.ReleaseLock
      requires tr.events == [LockExpired, RequestFailed] || tr.events == [HeartbeatTimeout, RequestFailed]
      modifies this
      ensures budget + 4 >= old(budget)
      ensures ctl == Idle && old(steps) <= steps
      ensures if ok then InPhase(n, Failed) else ShortOf(old(budget), 4)
      ensures ok ==> Did(cfg, t0, steps, since, n, Failed, tr.conds,
                         [AuditKey(n, tr.events[0], Executing, Failed), AuditKey(n, RequestFailed, Executing, Failed)])
      ensures ok ==> if tr.cleanup == DropLease
                     then leases == old(leases) - {LeaseName(cfg, ar.spec.uri)} || (leases == old(leases) && Logged(steps, since))
                     else leases == old(leases)
      ensures Valid()
    {
      hide Valid, Abs, Run, Do, Dispatch, LeaseName, JustDied, KeyOf, PatchSince, FiledSince, Did, Logged;
      PlainKey(n, tr, tr.events[0]);
      PlainKey(n, tr, tr.events[1]);
      ok := PatchAndDrop(n, t, ar, seen, tr, since);
      if !ok { return; }
      ghost var dropped := steps;
      ok := RecordTwo(n, tr, AuditKey(n, tr.events[0], Executing, Failed), AuditKey(n, RequestFailed, Executing, Failed), since);
      if Logged(dropped, since) { LoggedOn(dropped, steps, since); }
    }

    method PatchAndDrop(n: string, t: int, ar: Request, seen: Option<int>, tr: Transition, ghost since: nat) returns (ok: bool)
      requires since <= |steps|
      requires Valid() && ctl == Busy(n, t, ar, seen, Moving(tr)) && tr.cleanup != Cleanup.ReleaseLock
      modifies this
      ensures budget + 2 >= old(budget)
      ensures old(steps) <= steps
      ensures ok ==> PatchSince(cfg, t0, steps, since, n, tr.to, tr.conds)
      ensures ok ==> if tr.cleanup == DropLease
                     then leases == old(leases) - {LeaseName(cfg, ar.spec.uri)} || (leases == old(leases) && Logged(steps, since))
                     else leases == old(leases)
      ensures if ok then ctl.Busy? && ctl.n == n && ctl.pc == Recording(tr, 0) && InPhase(n, tr.to) else ctl == Idle && ShortOf(old(budget), 2)
      ensures Valid()
    {
      hide Valid, Abs, Run, Do, Since, LeaseName, JustDied, PatchSince, FiledSince, Did, Logged;
      var ar';
      ok, ar' := PatchPhase(n, tr, Approval(seen, ar.human, ar.conds.basis), since);
      ghost var patched := steps;
      if ok && tr.cleanup == DropLease {
        ok := DeleteExpiredLease(n, ar'.spec, GivenUp(t, Since(ar'.conds)), tr, since);
        PatchOn(cfg, t0, patched, steps, since, since, n, tr.to, tr.conds);
      }
    }

    /** reconcileAwaitingVerdict. */
    method ReconcileAwaitingVerdict(n: string, t: int, ar: Request, seen: Option<int>, result: Action, soak: bool, ghost since: nat)
      returns (ok: bool)
      requires since <= |steps|
      requires Valid() && ctl == Busy(n, t, ar, seen, Checked) && Unreported(ar) && ar.phase == AwaitingVerdict
      requires InPhase(n, AwaitingVerdict)
      modifies this
      ensures budget + 2 >= old(budget)
      ensures leases == old(leases) && ctl == Idle
      ensures ar.verdict.None? && t <= ar.spec.created + 168 * HOUR ==> ok && entries == old(entries) && audits == old(audits)
      ensures ok && ar.verdict.Some? ==> Did(cfg, t0, steps, since, n, Completed, None, [AuditKey(n, VerdictSubmitted, AwaitingVerdict, Completed)])
      ensures ok && ar.verdict.None? && t > ar.spec.created + 168 * HOUR ==>
                Did(cfg, t0, steps, since, n, Expired, None, [AuditKey(n, RequestExpired, AwaitingVerdict, Expired)])
      ensures ok ==> InPhase(n, if ar.verdict.Some? then Completed else if t > ar.spec.created + 168 * HOUR then Expired
                                else AwaitingVerdict)
      ensures !ok ==> ShortOf(old(budget), 2)
      ensures Valid() && old(steps) + [StepDispatch(result, soak)] <= steps
    {
      hide Valid, Abs, Run, Do, JustDied, PatchSince, FiledSince, Did;
      Decide(result, soak);
      ok := true;
      if ar.verdict.Some? {
        ok := Settle(n, t, ar, seen, Transition(AwaitingVerdict, Completed, None, NoCleanup, [VerdictSubmitted]), VerdictSubmitted, since);
      } else if t > ar.spec.created + VERDICT_TTL {
        ok := Settle(n, t, ar, seen, Transition(AwaitingVerdict, Expired, None, NoCleanup, [RequestExpired]), RequestExpired, since);
      }
    }

    /** The phase switch of Reconcile. */
    method ReconcilePhase(n: string, t: int, ar: Request, seen: Option<int>, result: Action, soak: bool, ghost since: nat) returns (ok: bool)
      requires since <= |steps|
      requires Valid() && ctl == Busy(n, t, ar, seen, Checked) && Unreported(ar) && InPhase(n, ar.phase)
      requires ar.phase == Unset ==> ar.conds.submitted.IsTrue()
      modifies this
      ensures budget + 5 >= old(budget)
      ensures ctl == Idle
      ensures ok ==> InPhase(n, QuietAim(cfg, old(leases), n, t, ar, result, soak))
      ensures ok ==> || leases == QuietLeases(cfg, old(leases), n, t, ar, result)
                     || (ar.phase == Executing && leases == old(leases) && Logged(steps, since))
      ensures ok && QuietAim(cfg, old(leases), n, t, ar, result, soak) != ar.phase ==>
                QuietDone(cfg, t0, steps, since, old(leases), n, t, ar, result, soak)
      ensures ok && ar.phase == Pending && !ar.conds.evaluated.IsTrue() ==> EvaluationStored(cfg, t0, steps, since, n, t, ar, result)
      ensures !ok ==> ShortOf(old(budget), 5)
      ensures Valid() && old(steps) + [StepDispatch(result, soak)] <= steps
    {
      hide Valid, Abs, Run, Do, JustDied, CommittedSince, Cleared, Available, WaitedOut, LockLeases, Undisturbed, Without,
           Renewed, PatchSince, FiledSince, Did, Logged, FiledOrLogged, PendingList, Overdue;
      if ar.phase == Pending {
        ok := ReconcilePending(n, t, ar, seen, result, soak, since);
      } else if ar.phase == Approved {
        ok := ReconcileApproved(n, t, ar, seen, result, soak, since);
      } else if ar.phase == Executing {
        ok := ReconcileExecuting(n, t, ar, seen, result, soak, since);
      } else if ar.phase == AwaitingVerdict {
        ok := ReconcileAwaitingVerdict(n, t, ar, seen, result, soak, since);
      } else {
        Decide(result, soak);
        ok := true;
      }
    }

    /** Reconcile. What the API server and the evaluator answer to its reads are inputs: the
        generation found for the governed resource, its soak mode, the evaluation's result.
        It starts by fetching a request that is not settled, looks at the governed resource and decides
        on an intact one. It makes at most five writes, so a process with that many left to live leaves
        the phase and the leases that follow from what it read, whatever others did meanwhile. A missing
        or settled request is left alone. */
    method Reconcile(n: string, found: Option<int>, result: Action, soak: bool) returns (ok: bool)
      requires Valid() && ctl == Idle
      modifies this
      ensures budget + 5 >= old(budget)
      ensures ctl == Idle && old(steps) <= steps
      ensures old(!(Stored(Abs(), n) && !Settled(entries[n].r.phase))) ==> ok && Abs() == old(Abs()) && steps == old(steps)
      ensures old(Stored(Abs(), n) && !Settled(entries[n].r.phase)) ==>
                && old(steps) + [Fetch(n)] <= steps
                && (StepCheckResource(found) in steps[|old(steps)|..])
                && (Intact(old(entries[n].r.spec), found) ==> StepDispatch(result, soak) in steps[|old(steps)|..])
                && (ok ==> Achieved(|old(steps)|, old(leases), n, old(now), old(entries[n].r), found, result, soak))
                && (old(OverdueApproval(n)) && Intact(old(entries[n].r.spec), found) ==>
                      ok ==> InPhase(n, Failed) && leases == Without(cfg, old(leases), n, old(entries[n].r.spec)))
                && (!ok ==> ShortOf(old(budget), 5))
      ensures Valid()
    {
      hide Run, Do, Aim, AimLeases, JustDied, Books, Achieved, Intact, Without, Unsignaled, Unreported;
      ok := true;
      if n !in entries || !entries[n].live { return; }
      var ar, t := entries[n].r, now;
      if Settled(ar.phase) { return; }
      ghost var was := Abs();
      ctl := Busy(n, t, ar, None, Fetched);
      FetchStep(cfg, was, n);
      Record(was, Fetch(n));
      ok := ReconcileFetched(n, t, ar, found, result, soak, old(steps), |old(steps)|);
      if ok && Intact(ar.spec, found) && old(OverdueApproval(n)) {
        OverdueEnds(cfg, t0, old(steps), born, old(budget), life, was, n, found, result, soak);
        AchievedEnd(|old(steps)|, old(leases), n, t, ar, found, result, soak, Failed, Without(cfg, old(leases), n, ar.spec));
      }
    }

    /** Reconcile once the request is read. */
    method ReconcileFetched(n: string, t: int, ar: Request, found: Option<int>, result: Action, soak: bool, ghost before: seq<Step>, ghost since: nat)
      returns (ok: bool)
      requires since <= |steps|
      requires before <= steps && Valid() && ctl == Busy(n, t, ar, None, Fetched) && InPhase(n, ar.phase)
      modifies this
      ensures budget + 5 >= old(budget)
      ensures ctl == Idle && old(steps) <= steps
      ensures before <= steps && StepCheckResource(found) in steps[|before|..]
      ensures Intact(ar.spec, found) ==> StepDispatch(result, soak) in steps[|before|..]
      ensures ok ==> Achieved(since, old(leases), n, t, ar, found, result, soak)
      ensures !ok ==> ShortOf(old(budget), 5)
      ensures Valid()
    {
      hide Valid, Abs, Run, Do, JustDied, QuietAim, QuietLeases, Without, Intact, InitialAim, PatchSince, FiledSince, Did,
           Logged, FiledOrLogged, EvaluationStored;
      Meanwhile();
      assert KeptPhase(old(entries), entries, n);
      var denied, seen;
      ghost var looked := steps;
      ok, denied, seen := CheckGovernedResourceIntegrity(n, t, ar, found, since);
      AmongNew(before, looked, steps, StepCheckResource(found));
      if denied { return; }
      label checked: Meanwhile();
      assert KeptPhase(old@checked(entries), entries, n);
      ghost var decided := steps;
      ok := ReconcileChecked(n, t, ar, seen, found, result, soak, since);
      AmongNew(before, looked, steps, StepCheckResource(found));
      AmongNew(before, decided, steps, StepDispatch(result, soak));
    }

    /** Reconcile once the governed resource is known to be intact. */
    method ReconcileChecked(n: string, t: int, ar: Request, seen: Option<int>, found: Option<int>, result: Action, soak: bool, ghost since: nat)
      returns (ok: bool)
      requires since <= |steps|
      requires Valid() && ctl == Busy(n, t, ar, seen, Checked) && InPhase(n, ar.phase) && Intact(ar.spec, found)
      modifies this
      ensures budget + 5 >= old(budget)
      ensures ctl == Idle
      ensures ok ==> Achieved(since, old(leases), n, t, ar, found, result, soak)
      ensures !ok ==> ShortOf(old(budget), 5)
      ensures Valid() && old(steps) + [StepDispatch(result, soak)] <= steps
    {
      hide Valid, Abs, Run, Do, JustDied, QuietLeases, QuietAim, Without, Intact, InitialAim, PatchSince, FiledSince, Did, Logged,
           FiledOrLogged, EvaluationStored, Achieved, QuietDone;
      var handled;
      ok, handled := CheckAgentTransitions(n, t, ar, seen, result, soak, since);
      if handled {
        if ok { ReportedAchieved(since, old(leases), n, t, ar, found, result, soak); }
        return;
      }
      ok, handled := InitializePhase(n, t, ar, seen, result, soak, since);
      if handled {
        if ok { InitialAchieved(since, n, t, ar, found, result, soak); }
        return;
      }
      ok := ReconcilePhase(n, t, ar, seen, result, soak, since);
      if ok { QuietAchieved(since, old(leases), n, t, ar, found, result, soak); }
    }

    /** So whatever the code did, the invariant of the lifecycle holds of the objects. */
    lemma Sound()
      requires Valid()
      ensures Inv(cfg, Abs())
    {
      hide Run, Inv;
      RunKeeps(cfg, t0, steps);
    }
  }
}

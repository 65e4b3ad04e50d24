/** Audit exactness over every run. */
module AuditRuns {
  import opened Api
  import opened Lifecycle
  import opened Phases
  import opened Invariant
  import opened Steps
  import opened History
  import opened AuditTrail

  // ---------- stored records ----------

  /** Stored records carry their deterministic name and are remembered by their request; until the
      collector starts on a request its records are all there. */
  ghost predicate AuditsInv(cfg: Config, entries: map<string, Entry>, audits: map<string, AuditKey>) {
    && (forall a :: a in audits ==>
          && a == AuditName(cfg, audits[a]) && audits[a].request in entries
          && audits[a] in entries[audits[a].request].recorded)
    && (forall n, k :: n in entries && !entries[n].swept && k in entries[n].recorded ==>
          AuditName(cfg, k) in audits && audits[AuditName(cfg, k)] == k)
  }

  /** A record that has not been made has a free name. */
  lemma FreshName(cfg: Config, entries: map<string, Entry>, audits: map<string, AuditKey>, n: string, k: AuditKey)
    requires AuditsInv(cfg, entries, audits) && CollisionFree(cfg, entries.Keys) && EntriesInv(cfg, entries)
    requires n in entries && k.request == n && k !in entries[n].recorded
    ensures AuditName(cfg, k) !in audits
  {
    hide EntryInv, AuditName, AuditInput;
    if AuditName(cfg, k) in audits {
      var k' := audits[AuditName(cfg, k)];
      AuditInputInjective(k, k');
    }
  }

  lemma AuditCreated(cfg: Config, entries: map<string, Entry>, audits: map<string, AuditKey>, n: string, k: AuditKey)
    requires AuditsInv(cfg, entries, audits) && n in entries && k.request == n && AuditName(cfg, k) !in audits
    ensures AuditsInv(cfg, entries[n := Recorded(entries[n], k)], audits[AuditName(cfg, k) := k])
  {
    hide AuditName;
  }

  lemma AuditsSame(cfg: Config, entries: map<string, Entry>, entries': map<string, Entry>, audits: map<string, AuditKey>)
    requires AuditsInv(cfg, entries, audits) && SameTrails(entries, entries')
    ensures AuditsInv(cfg, entries', audits)
  {
    hide AuditName;
  }

  lemma AuditsSwept(cfg: Config, entries: map<string, Entry>, audits: map<string, AuditKey>, a: string)
    requires AuditsInv(cfg, entries, audits) && a in audits
    requires forall m, k :: m in entries && k in entries[m].recorded ==> k.request == m
    ensures audits[a].request in entries
    ensures var n := audits[a].request; AuditsInv(cfg, entries[n := entries[n].(swept := true)], audits - {a})
  {
    hide AuditName;
  }

  // ---------- trails ----------

  predicate SameTrail(e: Entry, e': Entry) {
    e'.path == e.path && e'.recorded == e.recorded && e'.swept == e.swept
  }

  /** Requests may have been added; of the others path and records are the same. */
  predicate SameTrails(entries: map<string, Entry>, entries': map<string, Entry>) {
    && (forall n :: n in entries ==> n in entries' && SameTrail(entries[n], entries'[n]))
    && (forall n :: n in entries' && n !in entries ==>
          entries'[n].path == [Unset] && entries'[n].recorded == multiset{})
  }

  ghost predicate TrailsInv(entries: map<string, Entry>, b: Ctl, crashed: bool) {
    forall n :: n in entries ==> TrailInv(n, entries[n], UpcomingFor(b, n), crashed)
  }

  /** What the running reconcile plans to emit is well formed. */
  predicate PlanGood(b: Ctl) {
    b.Busy? ==>
      match b.pc
      case Releasing(tr) => GoodEvents(tr)
      case Moving(tr) => GoodEvents(tr)
      case _ => true
  }

  ghost predicate Trail(cfg: Config, s: State) {
    AuditsInv(cfg, s.entries, s.audits) && TrailsInv(s.entries, s.ctl, s.crashed) && PlanGood(s.ctl)
  }

  lemma TrailsSame(entries: map<string, Entry>, entries': map<string, Entry>, b: Ctl, crashed: bool)
    requires TrailsInv(entries, b, crashed) && SameTrails(entries, entries')
    requires b.Busy? ==> b.n in entries
    ensures TrailsInv(entries', b, crashed)
  {
    forall n | n in entries' ensures TrailInv(n, entries'[n], UpcomingFor(b, n), crashed) {
      if n in entries {
        assert TrailInv(n, entries[n], UpcomingFor(b, n), crashed);
        assert SameTrail(entries[n], entries'[n]);
      }
    }
  }

  /** The reconcile goes on without owing or having recorded anything. */
  lemma TrailsCtl(entries: map<string, Entry>, b: Ctl, b': Ctl, crashed: bool)
    requires TrailsInv(entries, b, crashed)
    requires forall n :: UpcomingFor(b', n) == UpcomingFor(b, n)
    ensures TrailsInv(entries, b', crashed)
  {
    hide TrailInv;
  }

  lemma TrailsCrash(entries: map<string, Entry>, b: Ctl, crashed: bool)
    requires TrailsInv(entries, b, crashed)
    ensures TrailsInv(entries, Idle, true)
  {
    forall n | n in entries ensures TrailInv(n, entries[n], UpcomingFor(Idle, n), true) {
      assert TrailInv(n, entries[n], UpcomingFor(b, n), crashed);
    }
  }

  // ---------- steps beside the controller ----------

  lemma NoTrails(entries: map<string, Entry>)
    ensures SameTrails(entries, entries)
  {
  }

  lemma PutTrails(entries: map<string, Entry>, n: string, e': Entry)
    requires n in entries && SameTrail(entries[n], e')
    ensures SameTrails(entries, entries[n := e'])
  {
  }

  lemma SubmitTrails(s: State, n: string, spec: Spec, origin: Origin)
    ensures SameTrails(s.entries, Submitted(s, n, spec, origin).entries)
  {
    hide GoodName;
  }

  lemma WriteTrails(s: State, id: nat)
    ensures SameTrails(s.entries, WriteConds(s, id).entries)
    ensures SameTrails(s.entries, WriteDecision(s, id).entries)
    ensures SameTrails(s.entries, WriteVerdict(s, id).entries)
  {
    NoTrails(s.entries);
    if InFlight(s, id) && Stored(s, s.tasks[id].n) {
      var task, n, e := s.tasks[id], s.tasks[id].n, s.entries[s.tasks[id].n];
      if task.Conditioning? && task.snap.Some? && task.todo != [] {
        PutTrails(s.entries, n, Signaled(e, task.snap.value, task.todo[0], s.now));
      }
      if task.Deciding? { PutTrails(s.entries, n, HumanDecided(e, task.decision)); }
      if task.Grading? { PutTrails(s.entries, n, GradedEntry(e, task.verdict)); }
    }
    hide SameTrails;
  }

  lemma ResultTrails(s: State, n: string)
    ensures SameTrails(s.entries, PutResult(s, n).entries)
  {
    NoTrails(s.entries);
    if Stored(s, n) { PutTrails(s.entries, n, Touched(s.entries[n])); }
    hide SameTrails;
  }

  lemma DeleteTrails(s: State, n: string, collected: bool)
    ensures SameTrails(s.entries, Delete(s, n, collected).entries)
  {
    NoTrails(s.entries);
    if Stored(s, n) { PutTrails(s.entries, n, DeletedEntry(s.entries[n], s.now, collected)); }
    hide SameTrails;
  }

  /** Steps of the controller, and deletions of records. */
  predicate Central(a: Step) {
    a.Fetch? || a.StepCheckResource? || a.StepDispatch? || a == StepAdvance || a == StepTolerate || a == Crash
    || a.StepCollectAudit? || a.StepDropOrphan?
  }

  lemma SubmitBeside(s: State, a: Step)
    requires Submits(a)
    ensures Aside(s, DoSubmit(s, a)) && SameTrails(s.entries, DoSubmit(s, a).entries)
  {
    hide SameTrails, AdmitHttp, AdmitMcp, Submitted;
    NoTrails(s.entries);
    match a
    case SubmitHttp(n, body, gate, permitted) =>
      var spec := AdmitHttp(body, gate, permitted, s.now);
      if spec.Some? { SubmitTrails(s, n, spec.value, Http(gate, permitted)); }
    case SubmitMcp(n, body, gate) => SubmitTrails(s, n, AdmitMcp(body, gate, s.now), Mcp(gate));
    case SubmitDirect(n, spec) => SubmitTrails(s, n, spec.(created := s.now), Direct);
  }

  lemma ReportBeside(s: State, a: Step)
    requires Reports(a)
    ensures Aside(s, DoReport(s, a)) && SameTrails(s.entries, DoReport(s, a).entries)
  {
    hide SameTrails, Begin, ReadConds, WriteConds, SetTask, AbandonConds;
    NoTrails(s.entries);
    if a.StepWriteConds? { WriteTrails(s, a.id); }
  }

  lemma ReviewBeside(cfg: Config, s: State, a: Step)
    requires Reviews(a)
    ensures Aside(s, DoReview(cfg, s, a)) && SameTrails(s.entries, DoReview(cfg, s, a).entries)
  {
    hide SameTrails, StartDecision, WriteDecision, StartVerdict, WriteVerdict, PutResult;
    NoTrails(s.entries);
    match a
    case StepWriteDecision(id) => WriteTrails(s, id);
    case StepWriteVerdict(id) => WriteTrails(s, id);
    case StepPutResult(n) => ResultTrails(s, n);
    case _ =>
  }

  lemma CollectBeside(cfg: Config, s: State, a: Step)
    requires Collects(a) && !a.StepCollectAudit? && !a.StepDropOrphan?
    ensures Aside(s, DoCollect(cfg, s, a)) && SameTrails(s.entries, DoCollect(cfg, s, a).entries)
  {
    hide SameTrails, Begin, Judge, Delete, Collectable;
    NoTrails(s.entries);
    match a
    case StartCollect(id, n) =>
    case StepJudge(id) =>
    case StepCollect(id) => if Collectable(s, id) { CollectableTask(s, id); DeleteTrails(s, s.tasks[id].n, true); }
    case DedupDelete(n) => DeleteTrails(s, n, false);
  }

  lemma BesideStep(cfg: Config, s: State, a: Step)
    requires !Central(a)
    ensures Aside(s, Do(cfg, s, a)) && SameTrails(s.entries, Do(cfg, s, a).entries)
  {
    hide SameTrails, Aside, DoSubmit, DoReport, DoReview, DoCollect;
    if Submits(a) { SubmitBeside(s, a); }
    else if Reports(a) { ReportBeside(s, a); }
    else if Reviews(a) { ReviewBeside(cfg, s, a); }
    else if Collects(a) { CollectBeside(cfg, s, a); }
    else { NoTrails(s.entries); TickBeside(s, a.d); }
  }

  lemma TickBeside(s: State, d: nat)
    ensures Aside(s, s.(now := s.now + d))
  {
  }

  lemma AsideKeeps(cfg: Config, s: State, s': State)
    requires Trail(cfg, s) && Aside(s, s') && SameTrails(s.entries, s'.entries) && (s.ctl.Busy? ==> s.ctl.n in s.entries)
    ensures Trail(cfg, s')
  {
    hide AuditsInv, TrailsInv, SameTrails, PlanGood;
    AuditsSame(cfg, s.entries, s'.entries, s.audits);
    TrailsSame(s.entries, s'.entries, s.ctl, s.crashed);
  }

  // ---------- decisions ----------

  /** A program counter with nothing owed. */
  predicate Owing(b: Ctl) {
    b.Busy? && (b.pc.Cleaning? || b.pc.Recording?)
  }

  lemma CtlTrail(cfg: Config, s: State, b: Ctl)
    requires Trail(cfg, s) && !Owing(s.ctl) && !Owing(b) && PlanGood(b)
    ensures Trail(cfg, s.(ctl := b))
  {
    hide AuditsInv, TrailsInv, PlanGood;
    TrailsCtl(s.entries, s.ctl, b, s.crashed);
  }

  lemma PendingGood(b: Ctl, result: Action)
    requires b.Busy?
    ensures PlanGood(DispatchPending(b, result)) && !Owing(DispatchPending(b, result))
  {
  }

  lemma ActiveGood(cfg: Config, leases: map<string, Lease>, b: Ctl)
    requires b.Busy?
    ensures PlanGood(DispatchApproved(cfg, b)) && !Owing(DispatchApproved(cfg, b))
    ensures PlanGood(DispatchExecuting(cfg, leases, b)) && !Owing(DispatchExecuting(cfg, leases, b))
    ensures PlanGood(DispatchVerdict(b)) && !Owing(DispatchVerdict(b))
  {
    hide Holds, LeaseExpired, ApprovalTimedOut, LeaseName;
  }

  lemma DispatchGood(cfg: Config, leases: map<string, Lease>, b: Ctl, result: Action, soak: bool)
    requires b.Busy?
    ensures PlanGood(Dispatch(cfg, leases, b, result, soak)) && !Owing(Dispatch(cfg, leases, b, result, soak))
  {
    hide DispatchPending, DispatchApproved, DispatchExecuting, DispatchVerdict, Initialize, PlanGood, Owing;
    PendingGood(b, result);
    ActiveGood(cfg, leases, b);
    ReportedGood(b, soak);
  }

  lemma ReportedGood(b: Ctl, soak: bool)
    requires b.Busy?
    ensures PlanGood(Idle) && !Owing(Idle)
    ensures GoesWell(b, Initialize(b, soak))
    ensures GoesWell(b, Transition(b.ar.phase, Completed, None, ReleaseLock, [RequestCompleted, LockReleased]))
    ensures GoesWell(b, Transition(b.ar.phase, Failed, None, ReleaseLock, [RequestFailed, LockReleased]))
    ensures GoesWell(b, Transition(Approved, Executing, None, NoCleanup, [LockAcquired, RequestExecuting]))
  {
    EndGood(b, Completed, RequestCompleted);
    EndGood(b, Failed, RequestFailed);
    InitialGood(b, soak);
    StartGood(b);
    hide GoesWell, Initialize;
  }

  predicate GoesWell(b: Ctl, tr: Transition) {
    b.Busy? ==> PlanGood(Go(b, Moving(tr))) && !Owing(Go(b, Moving(tr)))
  }

  lemma EndGood(b: Ctl, to: Phase, e: Event)
    requires b.Busy? && ((to == Completed && e == RequestCompleted) || (to == Failed && e == RequestFailed))
    ensures GoesWell(b, Transition(b.ar.phase, to, None, ReleaseLock, [e, LockReleased]))
  {
  }

  lemma StartGood(b: Ctl)
    requires b.Busy?
    ensures GoesWell(b, Transition(Approved, Executing, None, NoCleanup, [LockAcquired, RequestExecuting]))
  {
  }

  lemma InitialGood(b: Ctl, soak: bool)
    requires b.Busy?
    ensures GoesWell(b, Initialize(b, soak))
  {
  }

  lemma DecidedTrail(cfg: Config, s: State, result: Action, soak: bool)
    requires Trail(cfg, s) && s.ctl.Busy? && s.ctl.pc == Checked && s.ctl.n in s.entries
    ensures Trail(cfg, Decided(cfg, s, s.ctl, result, soak))
  {
    DispatchGood(cfg, s.leases, s.ctl, result, soak);
    hide Trail, PlanGood, Dispatch;
    CtlTrail(cfg, s, Dispatch(cfg, s.leases, s.ctl, result, soak));
  }

  lemma CrashTrail(cfg: Config, s: State)
    requires Trail(cfg, s)
    ensures Trail(cfg, Abort(s))
  {
    hide AuditsInv, TrailsInv;
    TrailsCrash(s.entries, s.ctl, s.crashed);
  }

  // ---------- the controller's calls ----------

  /** One request's trail and the reconcile's place in it change together. */
  lemma TrailsPut(entries: map<string, Entry>, b: Ctl, b': Ctl, n: string, e': Entry, crashed: bool)
    requires TrailsInv(entries, b, crashed) && TrailInv(n, e', UpcomingFor(b', n), crashed)
    requires forall m :: m != n ==> UpcomingFor(b', m) == UpcomingFor(b, m)
    ensures TrailsInv(entries[n := e'], b', crashed)
  {
    hide TrailInv, UpcomingFor;
  }

  lemma TrailAt(cfg: Config, s: State, n: string)
    requires Trail(cfg, s) && n in s.entries
    ensures TrailInv(n, s.entries[n], UpcomingFor(s.ctl, n), s.crashed)
  {
    hide AuditsInv, TrailInv;
  }

  lemma MoveTrail(cfg: Config, s: State, tr: Transition)
    requires Inv(cfg, s) && Trail(cfg, s) && s.ctl.Busy? && s.ctl.pc == Moving(tr) && Stored(s, s.ctl.n)
    ensures Trail(cfg, CommitMove(s, s.ctl, tr))
  {
    hide Inv, PathInv, AuditsInv, TrailsInv, TrailInv, GoodEvents;
    var b, n, e := s.ctl, s.ctl.n, s.entries[s.ctl.n];
    var e' := Moved(e, tr, ReadBy(b));
    MovePaths(cfg, s, tr);
    MovedAudits(cfg, s.entries, s.audits, n, e');
    TrailAt(cfg, s, n);
    MovedTrail(n, e, tr, ReadBy(b), s.crashed);
    TrailsPut(s.entries, b, AfterMove(b, tr, e'.r), n, e', s.crashed);
    hide Moved;
  }

  lemma MovePaths(cfg: Config, s: State, tr: Transition)
    requires Inv(cfg, s) && s.ctl.Busy? && s.ctl.pc == Moving(tr) && Stored(s, s.ctl.n)
    ensures var e := s.entries[s.ctl.n];
            PathInv(e) && PathInv(Moved(e, tr, ReadBy(s.ctl))) && e.r.phase == tr.from
  {
    hide Inv, EntryInv, LeaseInv, CtlInv;
    AtCtl(cfg, s);
    MoveMakesPath(cfg, s.leases, s.entries[s.ctl.n], s.ctl, s.now, tr);
  }

  lemma MoveMakesPath(cfg: Config, leases: map<string, Lease>, e: Entry, b: Ctl, now: int, tr: Transition)
    requires b.Busy? && b.pc == Moving(tr) && CtlInv(cfg, leases, e, b, now) && EntryInv(cfg, e) && e.live
    ensures PathInv(e) && PathInv(Moved(e, tr, ReadBy(b))) && e.r.phase == tr.from
  {
    PathMoved(e, tr, ReadBy(b));
    hide PathInv;
  }

  lemma MovedAudits(cfg: Config, entries: map<string, Entry>, audits: map<string, AuditKey>, n: string, e': Entry)
    requires AuditsInv(cfg, entries, audits) && n in entries
    requires e'.recorded == entries[n].recorded && e'.swept == entries[n].swept
    ensures AuditsInv(cfg, entries[n := e'], audits)
  {
    hide AuditName;
  }

  lemma NoteTrail(cfg: Config, s: State, cs: Conds, acquire: bool)
    requires Trail(cfg, s) && s.ctl.Busy? && s.ctl.pc == Noting(cs, acquire) && Stored(s, s.ctl.n)
    ensures Trail(cfg, CommitNote(s, s.ctl, cs, acquire))
  {
    hide Trail, SameTrails, Noted, PlanGood;
    var n, e' := s.ctl.n, Noted(s.entries[s.ctl.n], cs);
    NotedTrails(s.entries, n, cs);
    AsideKeeps(cfg, s, Put(s, n, e'));
    NotingPlan(s.ctl, acquire, e'.r);
    CtlTrail(cfg, Put(s, n, e'), s.ctl.(pc := NotingAudit(acquire), ar := e'.r));
  }

  lemma NotedTrails(entries: map<string, Entry>, n: string, cs: Conds)
    requires n in entries
    ensures SameTrails(entries, entries[n := Noted(entries[n], cs)])
  {
    PutTrails(entries, n, Noted(entries[n], cs));
  }

  lemma NotingPlan(b: Ctl, acquire: bool, ar: Request)
    requires b.Busy?
    ensures PlanGood(b.(pc := NotingAudit(acquire), ar := ar)) && !Owing(b.(pc := NotingAudit(acquire), ar := ar))
  {
  }

  lemma LossTrails(entries: map<string, Entry>, entries': map<string, Entry>)
    requires OnlyLosses(entries, entries')
    ensures SameTrails(entries, entries')
  {
  }

  /** Calls that only take leases away and go on without owing a record. */
  lemma DispossessTrail(cfg: Config, s: State, s': State)
    requires Trail(cfg, s) && s.ctl.Busy? && s.ctl.n in s.entries && OnlyLosses(s.entries, s'.entries)
    requires s'.audits == s.audits && s'.crashed == s.crashed && PlanGood(s'.ctl)
    requires forall n :: UpcomingFor(s'.ctl, n) == UpcomingFor(s.ctl, n)
    ensures Trail(cfg, s')
  {
    hide AuditsInv, TrailsInv, SameTrails, PlanGood, OnlyLosses, UpcomingFor;
    LossTrails(s.entries, s'.entries);
    AuditsSame(cfg, s.entries, s'.entries, s.audits);
    TrailsSame(s.entries, s'.entries, s.ctl, s.crashed);
    TrailsCtl(s'.entries, s.ctl, s'.ctl, s.crashed);
  }

  lemma ReleaseTrail(cfg: Config, s: State, tr: Transition)
    requires Trail(cfg, s) && s.ctl.Busy? && s.ctl.pc == Releasing(tr) && s.ctl.n in s.entries
    ensures Trail(cfg, Advance(cfg, s, s.ctl))
  {
    hide RemoveLease, OnlyLosses, AuditsInv, TrailsInv, Holds, LeaseName, Since;
    DispossessOnly(cfg, s, s.ctl);
    DispossessTrail(cfg, s, Advance(cfg, s, s.ctl));
  }

  lemma CleanTrail(cfg: Config, s: State, tr: Transition)
    requires Trail(cfg, s) && s.ctl.Busy? && s.ctl.pc == Cleaning(tr) && s.ctl.n in s.entries
    ensures Trail(cfg, Advance(cfg, s, s.ctl))
  {
    hide CleanUp, OnlyLosses, AuditsInv, TrailsInv;
    DispossessOnly(cfg, s, s.ctl);
    DispossessTrail(cfg, s, Advance(cfg, s, s.ctl));
  }

  lemma AcquireTrail(cfg: Config, s: State)
    requires Trail(cfg, s) && s.ctl.Busy? && s.ctl.pc == Acquiring && s.ctl.n in s.entries
    ensures Trail(cfg, Acquire(cfg, s, s.ctl))
  {
    hide Acquire, OnlyLosses, AuditsInv, TrailsInv;
    AcquiredOnly(cfg, s, s.ctl);
    assert PlanGood(Won(s.ctl)) && PlanGood(GaveUpWaiting(s.ctl));
    hide GoodEvents;
    DispossessTrail(cfg, s, Acquire(cfg, s, s.ctl));
  }

  /** A record is created: one new record, one step further. */
  lemma CreatedTrail(cfg: Config, s: State, k: AuditKey, b: Ctl)
    requires Trail(cfg, s) && s.ctl.Busy? && s.ctl.n in s.entries && k.request == s.ctl.n && PlanGood(b)
    requires AuditName(cfg, k) !in s.audits
    requires TrailInv(s.ctl.n, Recorded(s.entries[s.ctl.n], k), UpcomingFor(b, s.ctl.n), s.crashed)
    requires forall m :: m != s.ctl.n ==> UpcomingFor(b, m) == UpcomingFor(s.ctl, m)
    ensures Trail(cfg, CreateAudit(cfg, s, s.ctl.n, k).(ctl := b))
  {
    hide AuditsInv, TrailsInv, TrailInv, PlanGood, UpcomingFor, Recorded, AuditName;
    AuditCreated(cfg, s.entries, s.audits, s.ctl.n, k);
    TrailsPut(s.entries, s.ctl, b, s.ctl.n, Recorded(s.entries[s.ctl.n], k), s.crashed);
  }

  /** The name is taken: nothing is created, one step further. */
  lemma SwallowedTrail(cfg: Config, s: State, b: Ctl)
    requires Trail(cfg, s) && s.ctl.Busy? && s.ctl.n in s.entries && PlanGood(b)
    requires TrailInv(s.ctl.n, s.entries[s.ctl.n], UpcomingFor(b, s.ctl.n), s.crashed)
    requires forall m :: m != s.ctl.n ==> UpcomingFor(b, m) == UpcomingFor(s.ctl, m)
    ensures Trail(cfg, s.(ctl := b))
  {
    hide AuditsInv, TrailsInv, TrailInv, PlanGood, UpcomingFor;
    TrailsPut(s.entries, s.ctl, b, s.ctl.n, s.entries[s.ctl.n], s.crashed);
    assert s.entries[s.ctl.n := s.entries[s.ctl.n]] == s.entries;
  }

  lemma PathAt(cfg: Config, s: State, n: string)
    requires Inv(cfg, s) && n in s.entries
    ensures PathInv(s.entries[n]) && EntriesInv(cfg, s.entries)
  {
    hide LeasesInv, TasksInv, TokensInv, WorkerInv, PathInv, ListOk, ApprovalSound, BarredSound, OriginSound;
  }

  /** Where the reconcile stands after record number `k`. */
  lemma UpcomingAfter(b: Ctl, tr: Transition, k: nat)
    requires b.Busy? && b.pc == Recording(tr, k)
    ensures UpcomingFor(b, b.n) == Rest(tr, k) && UpcomingFor(AfterRecord(b, tr, k), b.n) == After(tr, k)
    ensures forall m :: m != b.n ==> UpcomingFor(AfterRecord(b, tr, k), m) == UpcomingFor(b, m)
    ensures PlanGood(AfterRecord(b, tr, k))
  {
  }

  lemma EdgeRecordTrail(cfg: Config, s: State, tr: Transition, k: nat)
    requires Inv(cfg, s) && Trail(cfg, s) && CollisionFree(cfg, s.entries.Keys)
    requires s.ctl.Busy? && s.ctl.pc == Recording(tr, k) && s.ctl.n in s.entries
    requires k < |tr.events| && EdgeEvent(tr.events[k])
    ensures AuditName(cfg, KeyOf(s.ctl.n, tr, tr.events[k])) !in s.audits
    ensures Trail(cfg, CreateAudit(cfg, s, s.ctl.n, KeyOf(s.ctl.n, tr, tr.events[k])).(ctl := AfterRecord(s.ctl, tr, k)))
  {
    hide Inv, EntriesInv, Trail, TrailInv, CreateAudit, AuditName, CollisionFree, Recorded, PathInv, UpcomingFor, AfterRecord,
         PlanGood, After;
    var b, n, key := s.ctl, s.ctl.n, KeyOf(s.ctl.n, tr, tr.events[k]);
    PathAt(cfg, s, n);
    TrailAt(cfg, s, n);
    UpcomingAfter(b, tr, k);
    EdgeRecord(n, s.entries[n], tr, k, s.crashed);
    assert AuditsInv(cfg, s.entries, s.audits) by { AuditsOf(cfg, s); }
    hide AuditsInv;
    FreshName(cfg, s.entries, s.audits, n, key);
    CreatedTrail(cfg, s, key, AfterRecord(b, tr, k));
  }

  lemma AuditsOf(cfg: Config, s: State)
    requires Trail(cfg, s)
    ensures AuditsInv(cfg, s.entries, s.audits)
  {
  }

  lemma SideRecordTrail(cfg: Config, s: State, tr: Transition, k: nat)
    requires Trail(cfg, s) && s.ctl.Busy? && s.ctl.pc == Recording(tr, k) && s.ctl.n in s.entries
    requires k < |tr.events| && !EdgeEvent(tr.events[k])
    ensures Trail(cfg, CreateAudit(cfg, s, s.ctl.n, KeyOf(s.ctl.n, tr, tr.events[k])).(ctl := AfterRecord(s.ctl, tr, k)))
    ensures Trail(cfg, s.(ctl := AfterRecord(s.ctl, tr, k)))
  {
    hide Trail, TrailInv, AuditName, Recorded, UpcomingFor, AfterRecord, PlanGood, After;
    var b, n, key := s.ctl, s.ctl.n, KeyOf(s.ctl.n, tr, tr.events[k]);
    TrailAt(cfg, s, n);
    UpcomingAfter(b, tr, k);
    SkipSide(n, s.entries[n], tr, k, s.crashed);
    SideRecord(n, s.entries[n], key, After(tr, k), s.crashed);
    SwallowedTrail(cfg, s, AfterRecord(b, tr, k));
    if AuditName(cfg, key) !in s.audits {
      hide CreateAudit;
      CreatedTrail(cfg, s, key, AfterRecord(b, tr, k));
    }
  }

  lemma NothingLeft(n: string, e: Entry, tr: Transition, k: nat, crashed: bool)
    requires TrailInv(n, e, Rest(tr, k), crashed) && k >= |tr.events|
    ensures TrailInv(n, e, Nothing, crashed)
  {
  }

  lemma DoneTrail(cfg: Config, s: State, tr: Transition, k: nat)
    requires Trail(cfg, s) && s.ctl.Busy? && s.ctl.pc == Recording(tr, k) && s.ctl.n in s.entries && k >= |tr.events|
    ensures Trail(cfg, s.(ctl := Idle))
  {
    hide Trail, TrailInv;
    TrailAt(cfg, s, s.ctl.n);
    NothingLeft(s.ctl.n, s.entries[s.ctl.n], tr, k, s.crashed);
    SwallowedTrail(cfg, s, Idle);
  }

  lemma NotingAuditTrail(cfg: Config, s: State, acquire: bool)
    requires Trail(cfg, s) && s.ctl.Busy? && s.ctl.pc == NotingAudit(acquire) && s.ctl.n in s.entries
    ensures Trail(cfg, Advance(cfg, s, s.ctl))
    ensures Trail(cfg, s.(ctl := if acquire then Go(s.ctl, Acquiring) else Idle))
  {
    hide Trail, TrailInv, AuditName, Recorded;
    var key := AuditKey(s.ctl.n, PolicyEvaluated, Api.Pending, Unset);
    var b := if acquire then Go(s.ctl, Acquiring) else Idle;
    TrailAt(cfg, s, s.ctl.n);
    SideRecord(s.ctl.n, s.entries[s.ctl.n], key, Nothing, s.crashed);
    SwallowedTrail(cfg, s, b);
    if AuditName(cfg, key) !in s.audits {
      hide CreateAudit;
      CreatedTrail(cfg, s, key, b);
    }
  }

  lemma SweptTrail(n: string, e: Entry, rest: Upcoming, crashed: bool)
    requires TrailInv(n, e, rest, crashed)
    ensures TrailInv(n, e.(swept := true), rest, crashed)
  {
  }

  lemma SweepTrail(cfg: Config, s: State, a: string)
    requires Trail(cfg, s)
    ensures Trail(cfg, Sweep(s, a))
  {
    if a in s.audits && s.audits[a].request in s.entries {
      hide AuditsInv, TrailsInv, TrailInv, PlanGood, UpcomingFor;
      var n := s.audits[a].request;
      var e' := s.entries[n].(swept := true);
      RequestsNamed(s.entries, s.ctl, s.crashed);
      TrailAt(cfg, s, n);
      SweptTrail(n, s.entries[n], UpcomingFor(s.ctl, n), s.crashed);
      AuditsSwept(cfg, s.entries, s.audits, a);
      TrailsPut(s.entries, s.ctl, s.ctl, n, e', s.crashed);
    }
  }

  lemma RequestsNamed(entries: map<string, Entry>, b: Ctl, crashed: bool)
    requires TrailsInv(entries, b, crashed)
    ensures forall m, k :: m in entries && k in entries[m].recorded ==> k.request == m
  {
    forall m, k | m in entries && k in entries[m].recorded ensures k.request == m {
      assert TrailInv(m, entries[m], UpcomingFor(b, m), crashed);
    }
  }

  // ---------- every step, every run ----------

  lemma AdvanceTrail(cfg: Config, s: State)
    requires Inv(cfg, s) && Trail(cfg, s) && CollisionFree(cfg, s.entries.Keys) && s.ctl.Busy? && s.ctl.n in s.entries
    ensures Trail(cfg, Advance(cfg, s, s.ctl))
  {
    hide Inv, Trail, CollisionFree, Acquire, CleanUp, RemoveLease, CreateAudit, KeyOf, AfterRecord, Holds;
    match s.ctl.pc
    case Fetched =>
    case Checked =>
    case Releasing(tr) => ReleaseTrail(cfg, s, tr);
    case Moving(tr) => if Stored(s, s.ctl.n) { MoveTrail(cfg, s, tr); } else { CrashTrail(cfg, s); }
    case Cleaning(tr) => CleanTrail(cfg, s, tr);
    case Recording(tr, k) =>
      if k >= |tr.events| { DoneTrail(cfg, s, tr, k); }
      else if EdgeEvent(tr.events[k]) { EdgeRecordTrail(cfg, s, tr, k); }
      else { SideRecordTrail(cfg, s, tr, k); }
    case Noting(cs, acquire) => if Stored(s, s.ctl.n) { NoteTrail(cfg, s, cs, acquire); } else { CrashTrail(cfg, s); }
    case NotingAudit(acquire) => NotingAuditTrail(cfg, s, acquire);
    case Acquiring => AcquireTrail(cfg, s);
    case Renewing => CtlTrail(cfg, s, Idle); RenewTrail(cfg, s);
  }

  lemma RenewTrail(cfg: Config, s: State)
    requires s.ctl.Busy? && Trail(cfg, s.(ctl := Idle))
    ensures Trail(cfg, Renew(cfg, s, s.ctl))
  {
    hide AuditsInv, TrailsInv, PlanGood, Holds;
  }

  lemma TolerateTrail(cfg: Config, s: State)
    requires Trail(cfg, s) && s.ctl.Busy? && s.ctl.n in s.entries
    ensures Trail(cfg, Tolerate(s, s.ctl))
  {
    hide Trail, AfterRecord;
    match s.ctl.pc
    case NotingAudit(acquire) => NotingAuditTrail(cfg, s, acquire);
    case Recording(tr, k) =>
      if k < |tr.events| && tr.events[k] == PolicyEvaluated { SideRecordTrail(cfg, s, tr, k); }
    case Cleaning(tr) => SkipCleaning(cfg, s, tr);
    case _ =>
  }

  lemma SkipCleaning(cfg: Config, s: State, tr: Transition)
    requires Trail(cfg, s) && s.ctl.Busy? && s.ctl.pc == Cleaning(tr)
    ensures Trail(cfg, s.(ctl := Go(s.ctl, Recording(tr, 0))))
  {
    hide AuditsInv, TrailsInv;
    TrailsCtl(s.entries, s.ctl, Go(s.ctl, Recording(tr, 0)), s.crashed);
  }

  lemma FetchTrail(cfg: Config, s: State, n: string)
    requires Trail(cfg, s)
    ensures Trail(cfg, StepFetch(s, n))
  {
    hide Trail;
    if s.ctl.Idle? && Stored(s, n) { CtlTrail(cfg, s, Busy(n, s.now, s.entries[n].r, None, Fetched)); }
  }

  lemma ControlTrail(cfg: Config, s: State, a: Step)
    requires Inv(cfg, s) && Trail(cfg, s) && CollisionFree(cfg, s.entries.Keys) && Central(a) && !Collects(a)
    requires s.ctl.Busy? ==> s.ctl.n in s.entries
    ensures Trail(cfg, DoControl(cfg, s, a))
  {
    hide Inv, Trail, CollisionFree, Advance, Tolerate, Decided, CheckResource, StepFetch;
    match a
    case Fetch(n) => FetchTrail(cfg, s, n);
    case StepCheckResource(found) => if s.ctl.Busy? && s.ctl.pc == Fetched { CheckTrail(cfg, s, found); }
    case StepDispatch(result, soak) => if s.ctl.Busy? && s.ctl.pc == Checked { DecidedTrail(cfg, s, result, soak); }
    case StepAdvance => if s.ctl.Busy? { AdvanceTrail(cfg, s); }
    case StepTolerate => if s.ctl.Busy? { TolerateTrail(cfg, s); }
    case Crash => CrashTrail(cfg, s);
  }

  lemma RemovalTrail(cfg: Config, s: State, a: Step)
    requires Trail(cfg, s) && (a.StepCollectAudit? || a.StepDropOrphan?)
    ensures Trail(cfg, DoCollect(cfg, s, a))
  {
    hide Trail, Sweep, Collectable;
    SweepTrail(cfg, s, a.a);
  }

  lemma CentralTrail(cfg: Config, s: State, a: Step)
    requires Inv(cfg, s) && Trail(cfg, s) && CollisionFree(cfg, s.entries.Keys) && Central(a)
    requires s.ctl.Busy? ==> s.ctl.n in s.entries
    ensures Trail(cfg, Do(cfg, s, a))
  {
    hide Inv, Trail, CollisionFree, DoSubmit, DoReport, DoReview, DoCollect, DoControl;
    if Collects(a) { RemovalTrail(cfg, s, a); } else { ControlTrail(cfg, s, a); }
  }

  lemma CheckTrail(cfg: Config, s: State, found: Option<int>)
    requires Trail(cfg, s) && s.ctl.Busy? && s.ctl.pc == Fetched
    ensures Trail(cfg, s.(ctl := CheckResource(s.ctl, found)))
  {
    hide Trail;
    CtlTrail(cfg, s, CheckResource(s.ctl, found));
  }

  lemma StepTrail(cfg: Config, s: State, a: Step)
    requires Inv(cfg, s) && Trail(cfg, s) && CollisionFree(cfg, s.entries.Keys)
    ensures Trail(cfg, Do(cfg, s, a))
  {
    hide Inv, Trail, CollisionFree, Do, SameTrails, CtlInv, EntryInv, LeaseInv;
    if s.ctl.Busy? { AtCtl(cfg, s); }
    if Central(a) {
      CentralTrail(cfg, s, a);
    } else {
      BesideStep(cfg, s, a);
      AsideKeeps(cfg, s, Do(cfg, s, a));
    }
  }

  lemma CollisionFreeBelow(cfg: Config, names: set<string>, more: set<string>)
    requires CollisionFree(cfg, more) && names <= more
    ensures CollisionFree(cfg, names)
  {
    hide AuditName, AuditInput;
  }

  lemma {:induction false} RunTrail(cfg: Config, t0: int, steps: seq<Step>)
    requires CollisionFree(cfg, Run(cfg, t0, steps).entries.Keys)
    ensures Trail(cfg, Run(cfg, t0, steps))
  {
    if steps != [] {
      hide Run, Do, Inv, Trail, CollisionFree, Follows;
      var last := |steps| - 1;
      var s := Run(cfg, t0, steps[..last]);
      RunLast(cfg, t0, steps);
      StepFollows(cfg, s, steps[last]);
      CollisionFreeBelow(cfg, s.entries.Keys, Run(cfg, t0, steps).entries.Keys);
      RunTrail(cfg, t0, steps[..last]);
      RunKeeps(cfg, t0, steps[..last]);
      StepTrail(cfg, s, steps[last]);
    }
  }

  /** Audit exactness. In every reachable state the phase changes of a request each have at most one
      record standing for them; exactly one if the controller never died and is not at work on the
      request; every record filed under a phase change is about one the request made, and is made
      once; and until the collector starts on the request they are all stored under their names. */
  lemma AuditExactness(cfg: Config, t0: int, steps: seq<Step>, n: string)
    requires CollisionFree(cfg, Run(cfg, t0, steps).entries.Keys) && n in Run(cfg, t0, steps).entries
    ensures var s, e := Run(cfg, t0, steps), Run(cfg, t0, steps).entries[n];
            && (forall i, j :: 0 <= i < j < |e.path| && j == i + 1 ==> Count(e.recorded, n, e.path[i], e.path[j]) <= 1)
            && (!s.crashed && !(s.ctl.Busy? && s.ctl.n == n) ==>
                  forall i, j :: 0 <= i < j < |e.path| && j == i + 1 ==> Count(e.recorded, n, e.path[i], e.path[j]) == 1)
            && (forall k :: k in e.recorded && EdgeEvent(k.event) ==>
                  k.request == n && e.recorded[k] == 1 && OnPath(e.path, k.from, k.to))
            && (!e.swept ==> forall k :: k in e.recorded ==>
                  AuditName(cfg, k) in s.audits && s.audits[AuditName(cfg, k)] == k)
  {
    hide Run, AuditName, OnPath, Count;
    RunTrail(cfg, t0, steps);
    var s := Run(cfg, t0, steps);
    TrailAt(cfg, s, n);
  }

  /** AlreadyExists never swallows the record of a phase change: whenever the controller is about to
      create one, its name is free. */
  lemma NeverSwallowed(cfg: Config, t0: int, steps: seq<Step>, tr: Transition, k: nat)
    requires CollisionFree(cfg, Run(cfg, t0, steps).entries.Keys)
    requires var s := Run(cfg, t0, steps);
             s.ctl.Busy? && s.ctl.pc == Recording(tr, k) && k < |tr.events| && EdgeEvent(tr.events[k])
    ensures var s := Run(cfg, t0, steps); AuditName(cfg, KeyOf(s.ctl.n, tr, tr.events[k])) !in s.audits
  {
    hide Run, Inv, Trail, CollisionFree, AuditName, KeyOf, CtlInv, EntryInv, LeaseInv;
    RunTrail(cfg, t0, steps);
    RunKeeps(cfg, t0, steps);
    AtCtl(cfg, Run(cfg, t0, steps));
    EdgeRecordTrail(cfg, Run(cfg, t0, steps), tr, k);
  }
}

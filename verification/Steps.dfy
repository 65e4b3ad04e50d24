/** The steps of the controller, the gateway and the collector keep the invariant, and so does
    every run. */
module Steps {
  import opened Api
  import opened TrustGate
  import opened Lifecycle
  import opened Phases
  import opened Invariant
  import opened Entries
  import opened Preservation
  import opened Decisions
  import opened Locks

  // ---------- reading parts of the invariant ----------

  lemma At(cfg: Config, s: State, n: string)
    requires Inv(cfg, s) && n in s.entries
    ensures GoodName(n) && EntryInv(cfg, s.entries[n]) && LeaseInv(cfg, s.leases, n, s.entries[n]) && Timely(s.entries[n], s.now)
  {
    hide EntryInv, LeaseInv, TasksInv, TokensInv, WorkerInv, Timely;
  }

  lemma AtTask(cfg: Config, s: State, id: nat)
    requires Inv(cfg, s) && InFlight(s, id)
    ensures s.tasks[id].n in s.entries && TaskInv(s.entries[s.tasks[id].n], s.tasks[id])
  {
    hide TaskInv, TimesInv, JudgedInv, EntriesInv, LeasesInv, TokensInv, WorkerInv;
  }

  lemma AtCtl(cfg: Config, s: State)
    requires Inv(cfg, s) && s.ctl.Busy?
    ensures s.ctl.n in s.entries && CtlInv(cfg, s.leases, s.entries[s.ctl.n], s.ctl, s.now)
    ensures GoodName(s.ctl.n) && EntryInv(cfg, s.entries[s.ctl.n])
    ensures LeaseInv(cfg, s.leases, s.ctl.n, s.entries[s.ctl.n])
  {
    hide EntryInv, LeaseInv, CtlInv, TasksInv, TokensInv, TimesInv, JudgedInv;
  }

  // ---------- the controller ----------

  lemma FetchKeeps(cfg: Config, s: State, n: string)
    requires Inv(cfg, s)
    ensures Inv(cfg, StepFetch(s, n))
  {
    hide Inv, CtlInv, EntryInv, LeaseInv;
    if s.ctl.Idle? && Stored(s, n) && !Settled(s.entries[n].r.phase) {
      At(cfg, s, n);
      FetchAllowed(cfg, s.leases, n, s.entries[n], s.now);
      SetCtlKeeps(cfg, s, Busy(n, s.now, s.entries[n].r, None, Fetched), s.crashed);
    }
  }

  lemma CheckKeeps(cfg: Config, s: State, found: Option<int>)
    requires Inv(cfg, s) && s.ctl.Busy? && s.ctl.pc == Fetched
    ensures Inv(cfg, s.(ctl := CheckResource(s.ctl, found)))
  {
    hide Inv, CtlInv, EntryInv, LeaseInv, CheckResource;
    AtCtl(cfg, s);
    CheckAllowed(cfg, s.leases, s.entries[s.ctl.n], s.ctl, s.now, found);
    SetCtlKeeps(cfg, s, CheckResource(s.ctl, found), s.crashed);
  }

  lemma DecidedKeeps(cfg: Config, s: State, result: Action, soak: bool)
    requires Inv(cfg, s) && s.ctl.Busy? && s.ctl.pc == Checked
    ensures Inv(cfg, Decided(cfg, s, s.ctl, result, soak))
  {
    hide Inv, CtlInv, EntryInv, LeaseInv, Dispatch;
    AtCtl(cfg, s);
    DispatchAllowed(cfg, s.leases, s.entries[s.ctl.n], s.ctl, s.now, result, soak);
    SetCtlKeeps(cfg, s, Dispatch(cfg, s.leases, s.ctl, result, soak), s.crashed);
  }

  lemma NoteKeeps(cfg: Config, s: State, cs: Conds, acquire: bool)
    requires Inv(cfg, s) && s.ctl.Busy? && s.ctl.pc == Noting(cs, acquire) && Stored(s, s.ctl.n)
    ensures Inv(cfg, CommitNote(s, s.ctl, cs, acquire))
  {
    AtCtl(cfg, s);
    hide TimesInv, JudgedInv, EntriesInv, LeasesInv, TasksInv, TokensInv, CtlInv, EntryInv, LeaseInv, GoodName, Height, Timely;
    var n, e := s.ctl.n, s.entries[s.ctl.n];
    var e' := Noted(e, cs);
    NoteAllowed(cfg, s.leases, e, s.ctl, s.now, cs, acquire);
    NotedLease(cfg, s.leases, e, n, cs);
    EntriesKept(cfg, s.entries, n, e');
    TimesKept(s.entries, s.now, n, e');
    LeasesPut(cfg, s.entries, s.leases, n, e');
    ReadersKept(s.entries, s.tasks, s.tokens, n, e');
    hide Noted;
  }

  lemma MoveKeeps(cfg: Config, s: State, tr: Transition)
    requires Inv(cfg, s) && s.ctl.Busy? && s.ctl.pc == Moving(tr) && Stored(s, s.ctl.n)
    ensures Inv(cfg, CommitMove(s, s.ctl, tr))
  {
    AtCtl(cfg, s);
    hide TimesInv, JudgedInv, EntriesInv, LeasesInv, TasksInv, TokensInv, CtlInv, EntryInv, LeaseInv, GoodName, Height, Timely;
    var n, e := s.ctl.n, s.entries[s.ctl.n];
    var e' := Moved(e, tr, ReadBy(s.ctl));
    MoveAllowed(cfg, s.leases, e, s.ctl, s.now, tr);
    MovedLease(cfg, s.leases, e, s.ctl, s.now, tr);
    EntriesKept(cfg, s.entries, n, e');
    TimesKept(s.entries, s.now, n, e');
    LeasesPut(cfg, s.entries, s.leases, n, e');
    ReadersKept(s.entries, s.tasks, s.tokens, n, e');
    hide Moved;
  }

  /** Taking a lease away from its active holders, with a reason. */
  lemma RemoveKeeps(cfg: Config, s: State, ln: string, why: Loss)
    requires Inv(cfg, s) && ln in s.leases && Justified(cfg, why)
    ensures Inv(cfg, RemoveLease(cfg, s, ln, why).(ctl := Idle))
  {
    hide EntriesInv, TimesInv, JudgedInv, LeasesInv, TasksInv, TokensInv, CtlInv, MarkLost;
    MarkLostTimes(cfg, s.entries, s.now, ln, s.leases[ln], why);
    MarkLostKeeps(cfg, s.entries, s.tasks, s.tokens, ln, s.leases[ln], why);
    RemovedLease(cfg, s.entries, s.leases, ln, why);
  }

  lemma ReleaseKeeps(cfg: Config, s: State, tr: Transition)
    requires Inv(cfg, s) && s.ctl.Busy? && s.ctl.pc == Releasing(tr)
    ensures Inv(cfg, Advance(cfg, s, s.ctl))
  {
    hide Inv, CtlInv, EntryInv, LeaseInv;
    AtCtl(cfg, s);
    var b, e := s.ctl, s.entries[s.ctl.n];
    var ln, why := LeaseName(cfg, b.ar.spec.uri), GivenUp(b.t, Since(b.ar.conds));
    hide LeaseName, Since, HolderId;
    if Holds(cfg, s.leases, b.n, b.ar.spec) {
      var s1 := RemoveLease(cfg, s, ln, why).(ctl := Idle);
      ReleaseAllowed(cfg, s.leases, s1.leases, e, s1.entries[b.n], b, s.now, tr);
      RemoveKeeps(cfg, s, ln, why);
      SetCtlKeeps(cfg, s1, Go(b, Moving(tr)), s.crashed);
    } else {
      ReleaseAllowed(cfg, s.leases, s.leases, e, e, b, s.now, tr);
      SetCtlKeeps(cfg, s, Go(b, Moving(tr)), s.crashed);
    }
  }

  /** Deleting the lease of a settled request costs no active request anything. */
  lemma DropKeeps(cfg: Config, s: State, n: string, why: Loss, b: Ctl)
    requires Inv(cfg, s) && n in s.entries && !Active(s.entries[n].r.phase)
    requires Holds(cfg, s.leases, n, s.entries[n].r.spec)
    requires var ln := LeaseName(cfg, s.entries[n].r.spec.uri);
             WorkerInv(cfg, s.entries, s.leases - {ln}, b, s.now)
    ensures Inv(cfg, RemoveLease(cfg, s, LeaseName(cfg, s.entries[n].r.spec.uri), why).(ctl := b))
  {
    hide EntriesInv, TimesInv, JudgedInv, LeasesInv, TasksInv, TokensInv, WorkerInv, MarkLost;
    var ln := LeaseName(cfg, s.entries[n].r.spec.uri);
    NobodyLost(cfg, s.entries, s.leases, n, why);
    RemovedLease(cfg, s.entries, s.leases, ln, why);
  }

  lemma CleanKeeps(cfg: Config, s: State, tr: Transition)
    requires Inv(cfg, s) && s.ctl.Busy? && s.ctl.pc == Cleaning(tr)
    ensures Inv(cfg, Advance(cfg, s, s.ctl))
  {
    hide Inv, CtlInv, EntryInv, LeaseInv, PathInv, BarredSound, ApprovedTimeout, LeaseName, Since, HolderId, RemoveLease;
    AtCtl(cfg, s);
    var b, e := s.ctl, s.entries[s.ctl.n];
    WorkerFacts(cfg, s.leases, e, b, s.now);
    var ln, why := LeaseName(cfg, e.r.spec.uri), GivenUp(b.t, Since(b.ar.conds));
    CleanAllowed(cfg, s.leases, s.leases - {ln}, e, b, s.now, tr);
    CleanAllowed(cfg, s.leases, s.leases, e, b, s.now, tr);
    if tr.cleanup == DropLease || (tr.cleanup == ReleaseLock && Holds(cfg, s.leases, b.n, e.r.spec)) {
      DropKeeps(cfg, s, b.n, why, Go(b, Recording(tr, 0)));
    } else {
      SetCtlKeeps(cfg, s, Go(b, Recording(tr, 0)), s.crashed);
    }
  }

  lemma AuditKeeps(cfg: Config, s: State, n: string, k: AuditKey)
    requires Inv(cfg, s)
    ensures Inv(cfg, CreateAudit(cfg, s, n, k))
    ensures var s' := CreateAudit(cfg, s, n, k); s' == s.(entries := s'.entries, audits := s'.audits)
  {
    hide Inv, EntryInv, LeaseInv, Evolves, AuditName;
    if AuditName(cfg, k) !in s.audits && n in s.entries {
      At(cfg, s, n);
      RecordSound(cfg, s.entries[n], k);
      PutStays(cfg, s, n, Recorded(s.entries[n], k));
      SetAuditsKeeps(cfg, Put(s, n, Recorded(s.entries[n], k)), s.audits[AuditName(cfg, k) := k]);
    }
  }

  lemma AuditStepKeeps(cfg: Config, s: State, k: AuditKey, b: Ctl)
    requires Inv(cfg, s) && s.ctl.Busy? && (b.Busy? ==> b.n == s.ctl.n)
    requires b.Busy? ==> s.ctl.n in s.entries && CtlInv(cfg, s.leases, s.entries[s.ctl.n], b, s.now)
    ensures Inv(cfg, CreateAudit(cfg, s, s.ctl.n, k).(ctl := b))
  {
    hide Inv, CtlInv, CreateAudit;
    SetCtlKeeps(cfg, s, b, s.crashed);
    AuditKeeps(cfg, s.(ctl := b), s.ctl.n, k);
    SameAudit(cfg, s, s.ctl.n, k, b);
  }

  lemma SameAudit(cfg: Config, s: State, n: string, k: AuditKey, b: Ctl)
    ensures CreateAudit(cfg, s, n, k).(ctl := b) == CreateAudit(cfg, s.(ctl := b), n, k)
  {
  }

  lemma RecordKeeps(cfg: Config, s: State, tr: Transition, k: nat)
    requires Inv(cfg, s) && s.ctl.Busy? && s.ctl.pc == Recording(tr, k)
    ensures Inv(cfg, Advance(cfg, s, s.ctl))
  {
    hide Inv, CtlInv, EntryInv, LeaseInv, CreateAudit, KeyOf, AfterRecord;
    AtCtl(cfg, s);
    if k >= |tr.events| {
      SetCtlKeeps(cfg, s, Idle, s.crashed);
    } else {
      RecordAllowed(cfg, s.leases, s.entries[s.ctl.n], s.ctl, s.now, tr, k);
      AuditStepKeeps(cfg, s, KeyOf(s.ctl.n, tr, tr.events[k]), AfterRecord(s.ctl, tr, k));
    }
  }

  lemma NotingAuditKeeps(cfg: Config, s: State, acquire: bool)
    requires Inv(cfg, s) && s.ctl.Busy? && s.ctl.pc == NotingAudit(acquire)
    ensures Inv(cfg, Advance(cfg, s, s.ctl))
  {
    hide Inv, CtlInv, EntryInv, LeaseInv, CreateAudit;
    AtCtl(cfg, s);
    if acquire { NotedAllowed(cfg, s.leases, s.entries[s.ctl.n], s.ctl, s.now); }
    AuditStepKeeps(cfg, s, AuditKey(s.ctl.n, PolicyEvaluated, Pending, Unset),
                   if acquire then Go(s.ctl, Acquiring) else Idle);
  }

  lemma TolerateKeeps(cfg: Config, s: State)
    requires Inv(cfg, s) && s.ctl.Busy?
    ensures Inv(cfg, Tolerate(s, s.ctl))
  {
    hide Inv, CtlInv, EntryInv, LeaseInv, AfterRecord, PathInv, BarredSound, ApprovedTimeout;
    AtCtl(cfg, s);
    var b, e := s.ctl, s.entries[s.ctl.n];
    WorkerFacts(cfg, s.leases, e, b, s.now);
    match b.pc
    case NotingAudit(acquire) =>
      if acquire { NotedAllowed(cfg, s.leases, e, b, s.now); }
      SetCtlKeeps(cfg, s, if acquire then Go(b, Acquiring) else Idle, s.crashed);
    case Recording(tr, k) =>
      RecordAllowed(cfg, s.leases, e, b, s.now, tr, k);
      SetCtlKeeps(cfg, s, AfterRecord(b, tr, k), s.crashed);
    case Cleaning(tr) =>
      CleanAllowed(cfg, s.leases, s.leases, e, b, s.now, tr);
      SetCtlKeeps(cfg, s, Go(b, Recording(tr, 0)), s.crashed);
    case _ =>
  }

  lemma RenewKeeps(cfg: Config, s: State)
    requires Inv(cfg, s) && s.ctl.Busy? && s.ctl.pc == Renewing
    ensures Inv(cfg, Renew(cfg, s, s.ctl))
  {
    hide EntriesInv, TimesInv, JudgedInv, LeasesInv, TasksInv, TokensInv, CtlInv, EntryInv, LeaseInv, LeaseName, HolderId, ApprovedTimeout;
    hide PathInv, BarredSound;
    AtCtl(cfg, s);
    var b, e := s.ctl, s.entries[s.ctl.n];
    WorkerFacts(cfg, s.leases, e, b, s.now);
    if Holds(cfg, s.leases, b.n, b.ar.spec) {
      RenewedLease(cfg, s.entries, s.leases, b.n, b.t);
    }
  }

  lemma TakeKeeps(cfg: Config, s: State, b: Ctl)
    requires EntriesInv(cfg, s.entries) && TimesInv(s.entries, s.now)
    requires TasksInv(s.entries, s.tasks) && TokensInv(s.entries, s.tokens) && JudgedInv(cfg, s.tasks, s.now)
    requires b.Busy? && b.n in s.entries && s.entries[b.n].r.phase == Pending
    requires b.ar.spec == s.entries[b.n].r.spec
    requires LeasesInv(cfg, s.entries, s.leases - {LeaseName(cfg, b.ar.spec.uri)})
    requires WorkerInv(cfg, s.entries, TakeLease(cfg, s, b).leases, Won(b), s.now)
    ensures Inv(cfg, TakeLease(cfg, s, b))
  {
    hide EntriesInv, TimesInv, JudgedInv, LeasesInv, TasksInv, TokensInv, WorkerInv, LeaseName, OwnLease, Won;
    TakenLease(cfg, s.entries, s.leases, b.n, b.t);
  }

  lemma TakeFreeKeeps(cfg: Config, s: State)
    requires Inv(cfg, s) && s.ctl.Busy? && s.ctl.pc == Acquiring
    requires LeaseName(cfg, s.ctl.ar.spec.uri) !in s.leases
    ensures Inv(cfg, TakeLease(cfg, s, s.ctl))
  {
    hide EntriesInv, TimesInv, JudgedInv, LeasesInv, TasksInv, TokensInv, CtlInv, EntryInv, LeaseInv, LeaseName, HolderId, BarredSound, Won;
    hide PathInv, ApprovedTimeout;
    AtCtl(cfg, s);
    var b, e, ln := s.ctl, s.entries[s.ctl.n], LeaseName(cfg, s.ctl.ar.spec.uri);
    WorkerFacts(cfg, s.leases, e, b, s.now);
    assert s.leases - {ln} == s.leases;
    WonAllowed(cfg, s.leases, TakeLease(cfg, s, b).leases, e, b, s.now);
    TakeKeeps(cfg, s, b);
  }

  /** Taking over an expired lease: its active holders, if any, are marked as lapsed. */
  lemma TakeOverKeeps(cfg: Config, s: State, ln: string)
    requires Inv(cfg, s) && s.ctl.Busy? && s.ctl.pc == Acquiring
    requires ln == LeaseName(cfg, s.ctl.ar.spec.uri) && ln in s.leases && LeaseExpired(s.leases[ln], s.ctl.t)
    ensures Inv(cfg, TakeLease(cfg, Dispossess(cfg, s, ln, s.ctl.t), s.ctl))
  {
    hide EntriesInv, TimesInv, JudgedInv, LeasesInv, TasksInv, TokensInv, CtlInv, EntryInv, LeaseInv, LeaseName, HolderId, BarredSound, Won;
    hide PathInv, ApprovedTimeout;
    AtCtl(cfg, s);
    var b, e, l := s.ctl, s.entries[s.ctl.n], s.leases[ln];
    WorkerFacts(cfg, s.leases, e, b, s.now);
    var s1 := Dispossess(cfg, s, ln, b.t);
    var why := Lapsed(b.t, l.renewed, l.seconds);
    assert s1.entries[b.n] == e;
    hide MarkLost;
    MarkLostTimes(cfg, s.entries, s.now, ln, l, why);
    MarkLostKeeps(cfg, s.entries, s.tasks, s.tokens, ln, l, why);
    RemovedLease(cfg, s.entries, s.leases, ln, why);
    WonAllowed(cfg, s.leases, TakeLease(cfg, s1, b).leases, e, b, s.now);
    TakeKeeps(cfg, s1, b);
  }

  lemma AcquireKeeps(cfg: Config, s: State)
    requires Inv(cfg, s) && s.ctl.Busy? && s.ctl.pc == Acquiring
    ensures Inv(cfg, Acquire(cfg, s, s.ctl))
  {
    hide Inv, CtlInv, EntryInv, LeaseInv, LeaseName, HolderId, BarredSound, Won, GaveUpWaiting, TakeLease, Dispossess,
         LeaseExpired, LockWait, PathInv, ApprovedTimeout;
    AtCtl(cfg, s);
    var b, e, ln := s.ctl, s.entries[s.ctl.n], LeaseName(cfg, s.ctl.ar.spec.uri);
    WorkerFacts(cfg, s.leases, e, b, s.now);
    if ln !in s.leases {
      TakeFreeKeeps(cfg, s);
    } else if s.leases[ln].holder == HolderId(b.ar.spec, b.n) {
      WonAllowed(cfg, s.leases, s.leases, e, b, s.now);
      SetCtlKeeps(cfg, s, Won(b), s.crashed);
    } else if LeaseExpired(s.leases[ln], b.t) {
      TakeOverKeeps(cfg, s, ln);
    } else if b.ar.spec.created < b.t - LockWait(cfg) {
      GaveUpAllowed(cfg, s.leases, e, b, s.now);
      SetCtlKeeps(cfg, s, GaveUpWaiting(b), s.crashed);
    } else {
      SetCtlKeeps(cfg, s, Idle, s.crashed);
    }
  }

  lemma AdvanceKeeps(cfg: Config, s: State)
    requires Inv(cfg, s) && s.ctl.Busy?
    ensures Inv(cfg, Advance(cfg, s, s.ctl))
  {
    hide Inv, Acquire, Renew, CleanUp, Released, CreateAudit, KeyOf, AfterRecord;
    match s.ctl.pc
    case Fetched =>
    case Checked =>
    case Releasing(tr) => ReleaseKeeps(cfg, s, tr);
    case Moving(tr) => if Stored(s, s.ctl.n) { MoveKeeps(cfg, s, tr); } else { SetCtlKeeps(cfg, s, Idle, true); }
    case Cleaning(tr) => CleanKeeps(cfg, s, tr);
    case Recording(tr, k) => RecordKeeps(cfg, s, tr, k);
    case Noting(cs, acquire) =>
      if Stored(s, s.ctl.n) { NoteKeeps(cfg, s, cs, acquire); } else { SetCtlKeeps(cfg, s, Idle, true); }
    case NotingAudit(acquire) => NotingAuditKeeps(cfg, s, acquire);
    case Acquiring => AcquireKeeps(cfg, s);
    case Renewing => RenewKeeps(cfg, s);
  }

  // ---------- gateway and collector ----------

  lemma BeginKeeps(cfg: Config, s: State, id: nat, task: Task)
    requires Inv(cfg, s)
    requires !task.Finished? ==> task.n in s.entries && TaskInv(s.entries[task.n], task)
    requires JudgedDue(cfg, task, s.now)
    ensures Inv(cfg, Begin(s, id, task))
  {
    hide Inv, TaskInv;
    SetTaskKeeps(cfg, s, id, task);
  }

  /** Reports start only where the gateway's phase check or token let them. */
  lemma ReportKeeps(cfg: Config, s: State, id: nat, n: string, todo: seq<Signal>)
    requires Inv(cfg, s) && n in s.entries
    requires Active(s.entries[n].r.phase) || n in s.tokens || OnlyFails(todo)
    ensures Inv(cfg, Begin(s, id, Conditioning(n, todo, None)))
  {
    assert Barred(s.entries[n].r.spec) ==> OnlyFails(todo) by {
      if Active(s.entries[n].r.phase) {
        assert BarredSound(s.entries[n]) by { At(cfg, s, n); }
      }
    }
    hide Inv, OnlyFails;
    BeginKeeps(cfg, s, id, Conditioning(n, todo, None));
  }

  lemma ReadKeeps(cfg: Config, s: State, id: nat)
    requires Inv(cfg, s)
    ensures Inv(cfg, ReadConds(s, id))
  {
    if InFlight(s, id) && s.tasks[id].Conditioning? && Stored(s, s.tasks[id].n) {
      var n := s.tasks[id].n;
      assert ListOk(s.entries[n], s.entries[n].r.conds) by { At(cfg, s, n); }
      AtTask(cfg, s, id);
      hide Inv, ListOk, OnlyFails;
      SetTaskKeeps(cfg, s, id, s.tasks[id].(snap := Some(s.entries[n].r.conds)));
    }
  }

  lemma WriteKeeps(cfg: Config, s: State, id: nat)
    requires Inv(cfg, s)
    ensures Inv(cfg, WriteConds(s, id))
  {
    hide Inv, EntryInv, LeaseInv, Evolves, ListOk;
    if InFlight(s, id) && s.tasks[id].Conditioning? && Stored(s, s.tasks[id].n)
       && s.tasks[id].snap.Some? && s.tasks[id].todo != []
    {
      var task, n := s.tasks[id], s.tasks[id].n;
      var e := s.entries[n];
      var e' := Signaled(e, task.snap.value, task.todo[0], s.now);
      At(cfg, s, n);
      AtTask(cfg, s, id);
      SignalSound(cfg, e, task.snap.value, task.todo[0], s.now);
      PutStays(cfg, s, n, e');
      SetTaskKeeps(cfg, Put(s, n, e'), id, Conditioning(n, task.todo[1..], None));
    }
  }

  lemma WriteDecisionKeeps(cfg: Config, s: State, id: nat)
    requires Inv(cfg, s)
    ensures Inv(cfg, WriteDecision(s, id))
  {
    hide Inv, EntryInv, LeaseInv, Evolves, ListOk;
    if InFlight(s, id) && s.tasks[id].Deciding? && Stored(s, s.tasks[id].n) {
      var task, n := s.tasks[id], s.tasks[id].n;
      var e' := HumanDecided(s.entries[n], task.decision);
      At(cfg, s, n);
      AtTask(cfg, s, id);
      DecisionSound(cfg, s.entries[n], task.decision);
      PutStays(cfg, s, n, e');
      SetTaskKeeps(cfg, Put(s, n, e'), id, Finished);
    }
  }

  lemma WriteVerdictKeeps(cfg: Config, s: State, id: nat)
    requires Inv(cfg, s)
    ensures Inv(cfg, WriteVerdict(s, id))
  {
    hide Inv, EntryInv, LeaseInv, Evolves, ListOk;
    if InFlight(s, id) && s.tasks[id].Grading? && Stored(s, s.tasks[id].n)
       && s.entries[s.tasks[id].n].r.version == s.tasks[id].read.version
    {
      var task, n := s.tasks[id], s.tasks[id].n;
      var e' := GradedEntry(s.entries[n], task.verdict);
      At(cfg, s, n);
      AtTask(cfg, s, id);
      GradeSound(cfg, s.entries[n], task.verdict);
      PutStays(cfg, s, n, e');
      SetTaskKeeps(cfg, Put(s, n, e'), id, Finished);
    }
  }

  lemma TokenKeeps(cfg: Config, s: State, n: string)
    requires Inv(cfg, s) && n in s.entries && (s.entries[n].r.phase == Pending || Active(s.entries[n].r.phase))
    ensures Inv(cfg, s.(tokens := s.tokens + {n}))
  {
    assert BarredSound(s.entries[n]) by { At(cfg, s, n); }
    hide EntriesInv, TimesInv, JudgedInv, LeasesInv, TasksInv, WorkerInv;
    SetTokensKeeps(cfg, s, s.tokens + {n});
  }

  lemma StartDecisionKeeps(cfg: Config, s: State, id: nat, n: string, sub: string, approve: bool)
    requires Inv(cfg, s)
    ensures Inv(cfg, StartDecision(cfg, s, id, n, sub, approve))
  {
    hide Inv;
    if Stored(s, n) && id !in s.tasks && s.entries[n].r.spec.agent != sub && s.entries[n].r.phase == Pending {
      var s1 := SetTask(s, id, Deciding(n, Decision(approve, sub)));
      SetTaskKeeps(cfg, s, id, Deciding(n, Decision(approve, sub)));
      TokenKeeps(cfg, s1, n);
    }
  }

  lemma StartVerdictKeeps(cfg: Config, s: State, id: nat, n: string, v: Verdict)
    requires Inv(cfg, s)
    ensures Inv(cfg, StartVerdict(s, id, n, v))
  {
    hide Inv;
    if Stored(s, n) && ValidVerdict(v) && s.entries[n].r.phase == AwaitingVerdict && s.entries[n].r.verdict.None? {
      BeginKeeps(cfg, s, id, Grading(n, v.(at := s.now), s.entries[n].r));
    }
  }

  lemma PutResultKeeps(cfg: Config, s: State, n: string)
    requires Inv(cfg, s)
    ensures Inv(cfg, PutResult(s, n))
  {
    hide Inv, EntryInv, LeaseInv, Evolves;
    if Stored(s, n) {
      At(cfg, s, n);
      TouchSound(cfg, s.entries[n]);
      PutStays(cfg, s, n, Touched(s.entries[n]));
    }
  }

  lemma DeleteKeeps(cfg: Config, s: State, n: string, collected: bool)
    requires Inv(cfg, s) && (n in s.entries ==> Terminal(s.entries[n].r.phase))
    requires collected && n in s.entries ==>
               cfg.hardTTL != 0 && !cfg.dryRun && s.now - s.entries[n].r.spec.created >= cfg.hardTTL
    ensures Inv(cfg, Delete(s, n, collected))
  {
    hide Inv, EntryInv, LeaseInv, Evolves;
    if Stored(s, n) {
      At(cfg, s, n);
      var e' := DeletedEntry(s.entries[n], s.now, collected);
      DeleteSound(cfg, s.entries[n], s.now, collected);
      PutStays(cfg, s, n, e');
    }
  }

  lemma SweepKeeps(cfg: Config, s: State, a: string)
    requires Inv(cfg, s)
    requires a in s.audits && s.audits[a].request in s.entries ==> Terminal(s.entries[s.audits[a].request].r.phase)
    ensures Inv(cfg, Sweep(s, a))
  {
    hide Inv, EntryInv, LeaseInv, Evolves;
    if a in s.audits && s.audits[a].request in s.entries {
      var n := s.audits[a].request;
      At(cfg, s, n);
      SweepSound(cfg, s.entries[n]);
      PutStays(cfg, s, n, s.entries[n].(swept := true));
      SetAuditsKeeps(cfg, Put(s, n, s.entries[n].(swept := true)), s.audits - {a});
    }
  }

  lemma JudgeKeeps(cfg: Config, s: State, id: nat)
    requires Inv(cfg, s)
    ensures Inv(cfg, Judge(cfg, s, id))
  {
    hide Inv;
    if InFlight(s, id) && s.tasks[id].Collecting? {
      AtTask(cfg, s, id);
      if Judge(cfg, s, id) != s { SetTaskKeeps(cfg, s, id, s.tasks[id].(judged := Some(s.now))); }
    }
  }

  /** What was due when it was judged still is: the request is at an end for good and the clock runs on. */
  lemma StillDue(cfg: Config, s: State, id: nat)
    requires Inv(cfg, s) && Collectable(s, id)
    ensures s.tasks[id].n in s.entries
    ensures var e := s.entries[s.tasks[id].n];
            Terminal(e.r.phase) && cfg.hardTTL != 0 && !cfg.dryRun && s.now - e.r.spec.created >= cfg.hardTTL
  {
    AtTask(cfg, s, id);
    hide EntriesInv, TimesInv, LeasesInv, TasksInv, TokensInv, WorkerInv;
    assert JudgedDue(cfg, s.tasks[id], s.now);
  }

  lemma CollectAuditKeeps(cfg: Config, s: State, id: nat, a: string)
    requires Inv(cfg, s)
    ensures Inv(cfg, CollectAudit(s, id, a))
  {
    hide Inv, Sweep;
    if Collectable(s, id) && a in s.audits && s.audits[a].request == s.tasks[id].n {
      StillDue(cfg, s, id);
      SweepKeeps(cfg, s, a);
    }
  }

  lemma DropOrphanKeeps(cfg: Config, s: State, a: string)
    requires Inv(cfg, s)
    ensures Inv(cfg, DropOrphan(s, a))
  {
    hide Inv, Sweep;
    if a in s.audits && s.audits[a].request in s.entries && !s.entries[s.audits[a].request].live {
      assert DeletionSound(cfg, s.entries[s.audits[a].request]) by { At(cfg, s, s.audits[a].request); }
      SweepKeeps(cfg, s, a);
    }
  }

  /** The collector's copy and its judgement may be old, but what they say about age and end still holds. */
  lemma CollectKeeps(cfg: Config, s: State, id: nat)
    requires Inv(cfg, s)
    ensures Inv(cfg, Collect(s, id))
  {
    hide Inv, Delete;
    if Collectable(s, id) {
      StillDue(cfg, s, id);
      DeleteKeeps(cfg, s, s.tasks[id].n, true);
    }
  }

  // ---------- every step, every run ----------

  lemma TokenHolder(cfg: Config, s: State, n: string)
    requires Inv(cfg, s) && n in s.tokens
    ensures n in s.entries
  {
    hide EntriesInv, TimesInv, JudgedInv, LeasesInv, TasksInv, WorkerInv;
  }

  lemma AdmitKeeps(cfg: Config, s: State, n: string, spec: Spec, origin: Origin)
    requires Inv(cfg, s) && OriginSound(NewEntry(spec, origin))
    ensures Inv(cfg, Submitted(s, n, spec, origin))
  {
    hide Inv, OriginSound;
    if GoodName(n) && n !in s.entries { SubmitKeeps(cfg, s, n, spec, origin); }
  }

  lemma SubmitStepKeeps(cfg: Config, s: State, a: Step)
    requires Inv(cfg, s) && Submits(a)
    ensures Inv(cfg, DoSubmit(s, a))
  {
    hide Inv, AdmitHttp, AdmitMcp, Submitted, GateRefuses, GateWaives, TooLow;
    match a
    case SubmitHttp(n, body, gate, permitted) =>
      AdmittedSound(body, gate, permitted, s.now);
      var spec := AdmitHttp(body, gate, permitted, s.now);
      if spec.Some? { AdmitKeeps(cfg, s, n, spec.value, Http(gate, permitted)); }
    case SubmitMcp(n, body, gate) =>
      McpAdmittedSound(body, gate, s.now);
      AdmitKeeps(cfg, s, n, AdmitMcp(body, gate, s.now), Mcp(gate));
    case SubmitDirect(n, spec) => AdmitKeeps(cfg, s, n, spec.(created := s.now), Direct);
  }

  lemma ReportStepKeeps(cfg: Config, s: State, a: Step)
    requires Inv(cfg, s) && Reports(a)
    ensures Inv(cfg, DoReport(s, a))
  {
    hide Inv, Begin, ReadConds, WriteConds, SetTask;
    match a
    case StartExecuting(id, n) =>
      if PhaseOf(s, n) == Some(Approved) { ReportKeeps(cfg, s, id, n, [SigExecuting]); }
    case StartCompleted(id, n) =>
      if PhaseOf(s, n) == Some(Executing) { ReportKeeps(cfg, s, id, n, [SigCompleted]); }
    case StartMcpComplete(id, n) =>
      if n in s.tokens {
        TokenHolder(cfg, s, n);
        ReportKeeps(cfg, s, id, n, [SigExecuting, SigCompleted]);
      }
    case StartAbandon(id, n) =>
      if Stored(s, n) { ReportKeeps(cfg, s, id, n, AbandonConds(s.entries[n].r.phase)); }
    case StepReadConds(id) => ReadKeeps(cfg, s, id);
    case StepWriteConds(id) => WriteKeeps(cfg, s, id);
    case DropTask(id) => SetTaskKeeps(cfg, s, id, Finished);
  }

  lemma ReviewStepKeeps(cfg: Config, s: State, a: Step)
    requires Inv(cfg, s) && Reviews(a)
    ensures Inv(cfg, DoReview(cfg, s, a))
  {
    hide Inv, StartDecision, WriteDecision, StartVerdict, WriteVerdict, PutResult;
    match a
    case StepStartDecision(id, n, sub, approve) => StartDecisionKeeps(cfg, s, id, n, sub, approve);
    case StepWriteDecision(id) => WriteDecisionKeeps(cfg, s, id);
    case AwaitApproval(n) => if PhaseOf(s, n) == Some(Approved) { TokenKeeps(cfg, s, n); }
    case StepStartVerdict(id, n, verdict) => StartVerdictKeeps(cfg, s, id, n, verdict);
    case StepWriteVerdict(id) => WriteVerdictKeeps(cfg, s, id);
    case StepPutResult(n) => PutResultKeeps(cfg, s, n);
  }

  lemma CollectStepKeeps(cfg: Config, s: State, a: Step)
    requires Inv(cfg, s) && Collects(a)
    ensures Inv(cfg, DoCollect(cfg, s, a))
  {
    hide Inv, Begin, Judge, CollectAudit, Collect, DropOrphan, Delete;
    match a
    case StartCollect(id, n) => if Stored(s, n) { BeginKeeps(cfg, s, id, Collecting(n, s.entries[n].r, None)); }
    case StepJudge(id) => JudgeKeeps(cfg, s, id);
    case StepCollectAudit(id, a) => CollectAuditKeeps(cfg, s, id, a);
    case StepCollect(id) => CollectKeeps(cfg, s, id);
    case StepDropOrphan(a) => DropOrphanKeeps(cfg, s, a);
    case DedupDelete(n) => if Stored(s, n) && Terminal(s.entries[n].r.phase) { DeleteKeeps(cfg, s, n, false); }
  }

  lemma ControlStepKeeps(cfg: Config, s: State, a: Step)
    requires Inv(cfg, s)
    ensures Inv(cfg, DoControl(cfg, s, a))
  {
    hide Inv, StepFetch, CheckResource, Decided, Advance, Tolerate;
    match a
    case Tick(d) => TickKeeps(cfg, s, d);
    case Fetch(n) => FetchKeeps(cfg, s, n);
    case StepCheckResource(found) => if s.ctl.Busy? && s.ctl.pc == Fetched { CheckKeeps(cfg, s, found); }
    case StepDispatch(result, soak) => if s.ctl.Busy? && s.ctl.pc == Checked { DecidedKeeps(cfg, s, result, soak); }
    case StepAdvance => if s.ctl.Busy? { AdvanceKeeps(cfg, s); }
    case StepTolerate => if s.ctl.Busy? { TolerateKeeps(cfg, s); }
    case Crash => if s.ctl.Busy? { SetCtlKeeps(cfg, s, Idle, true); }
    case _ =>
  }

  lemma StepKeeps(cfg: Config, s: State, a: Step)
    requires Inv(cfg, s)
    ensures Inv(cfg, Do(cfg, s, a))
  {
    hide Inv, DoSubmit, DoReport, DoReview, DoCollect, DoControl;
    if Submits(a) { SubmitStepKeeps(cfg, s, a); }
    else if Reports(a) { ReportStepKeeps(cfg, s, a); }
    else if Reviews(a) { ReviewStepKeeps(cfg, s, a); }
    else if Collects(a) { CollectStepKeeps(cfg, s, a); }
    else { ControlStepKeeps(cfg, s, a); }
  }

  /** The invariant holds in every reachable state. */
  lemma {:induction false} RunKeeps(cfg: Config, t0: int, steps: seq<Step>)
    ensures Inv(cfg, Run(cfg, t0, steps))
  {
    if steps != [] {
      hide Inv, Do, Run;
      RunLast(cfg, t0, steps);
      RunKeeps(cfg, t0, steps[..|steps| - 1]);
      StepKeeps(cfg, Run(cfg, t0, steps[..|steps| - 1]), steps[|steps| - 1]);
    }
  }
}

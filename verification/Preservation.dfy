/** Every step keeps the invariant, so it holds after every run. */
module Preservation {
  import opened Api
  import opened Lifecycle
  import opened Phases
  import opened Invariant
  import opened Entries

  // ---------- changes to one part of the state ----------

  /** A change that neither moves the request nor touches its losses. */
  predicate Stays(e: Entry, e': Entry) {
    && Evolves(e, e') && e'.r.phase == e.r.phase && e'.path == e.path && e'.loss == e.loss && e'.approvedAt == e.approvedAt
    && (e.r.verdict.Some? ==> e'.r.verdict.Some?)
  }

  lemma ClaimsSurvive(e: Entry, e': Entry, basis: Option<Action>, lifted: bool)
    requires Stays(e, e') && Grounded(e, basis, lifted)
    ensures Grounded(e', basis, lifted)
  {
  }

  lemma ListsSurvive(e: Entry, e': Entry, phase: Phase, cs: Conds, t: int)
    requires Stays(e, e')
    ensures Covered(e', cs) == Covered(e, cs) && Firm(e', phase, cs) == Firm(e, phase, cs)
    ensures (ListOk(e, cs) ==> ListOk(e', cs)) && (NextListOk(e, phase, cs, t) ==> NextListOk(e', phase, cs, t))
    ensures Sourced(e, phase, cs) ==> Sourced(e', phase, cs)
  {
    hide Unsignaled, Settled, Height, Grounded;
    if Grounded(e, cs.basis, cs.requiresApproval.IsTrue()) { ClaimsSurvive(e, e', cs.basis, cs.requiresApproval.IsTrue()); }
  }

  lemma CtlSurvives(cfg: Config, leases: map<string, Lease>, e: Entry, e': Entry, b: Ctl, now: int)
    requires b.Busy? && Stays(e, e') && CtlInv(cfg, leases, e, b, now)
    ensures CtlInv(cfg, leases, e', b, now)
  {
    hide Holds, ListOk, NextListOk, Sourced, Covered, Firm, Settled, Height, ApprovalTimedOut, Unsignaled, Planned, EndsWith, BarredPhase;
    ListsSurvive(e, e', b.ar.phase, b.ar.conds, b.t);
    match b.pc {
      case Releasing(tr) => if tr.conds.Some? { ListsSurvive(e, e', tr.to, tr.conds.value, b.t); }
      case Moving(tr) => if tr.conds.Some? { ListsSurvive(e, e', tr.to, tr.conds.value, b.t); }
      case Noting(cs, _) => ListsSurvive(e, e', Pending, cs, b.t);
      case _ =>
    }
  }

  lemma LeaseSurvives(cfg: Config, leases: map<string, Lease>, n: string, e: Entry, e': Entry)
    requires Stays(e, e') && LeaseInv(cfg, leases, n, e)
    ensures LeaseInv(cfg, leases, n, e')
  {
  }

  /** Requests are only added, and their specs never change. */
  predicate Grows(entries: map<string, Entry>, entries': map<string, Entry>) {
    forall n :: n in entries ==> n in entries' && entries'[n].r.spec == entries[n].r.spec
  }

  lemma OwnedKept(cfg: Config, entries: map<string, Entry>, entries': map<string, Entry>, leases: map<string, Lease>)
    requires Grows(entries, entries')
    requires forall ln :: ln in leases ==> Owned(cfg, entries, ln, leases[ln])
    ensures forall ln :: ln in leases ==> Owned(cfg, entries', ln, leases[ln])
  {
    forall ln | ln in leases ensures Owned(cfg, entries', ln, leases[ln]) {
      var n :| n in entries && IsOwner(cfg, n, entries[n], ln, leases[ln]);
      assert IsOwner(cfg, n, entries'[n], ln, leases[ln]);
    }
  }

  /** Snapshots and minted tokens survive any evolution of one request. */
  lemma ReadersKept(entries: map<string, Entry>, tasks: map<nat, Task>, tokens: set<string>, n: string, e': Entry)
    requires TasksInv(entries, tasks) && TokensInv(entries, tokens)
    requires n in entries && Evolves(entries[n], e')
    ensures TasksInv(entries[n := e'], tasks) && TokensInv(entries[n := e'], tokens)
  {
    hide TaskInv, Height;
    forall id | id in tasks && !tasks[id].Finished? && tasks[id].n == n ensures TaskInv(e', tasks[id]) {
      TaskSurvives(entries[n], e', tasks[id]);
    }
  }

  lemma LeasesPut(cfg: Config, entries: map<string, Entry>, leases: map<string, Lease>, n: string, e: Entry)
    requires LeasesInv(cfg, entries, leases) && LeaseInv(cfg, leases, n, e)
    requires n in entries ==> e.r.spec == entries[n].r.spec
    ensures LeasesInv(cfg, entries[n := e], leases)
  {
    hide LeaseInv, Owned;
    OwnedKept(cfg, entries, entries[n := e], leases);
  }

  lemma EntriesKept(cfg: Config, entries: map<string, Entry>, n: string, e': Entry)
    requires EntriesInv(cfg, entries) && GoodName(n) && EntryInv(cfg, e')
    ensures EntriesInv(cfg, entries[n := e'])
  {
    hide EntryInv;
  }

  lemma TimesKept(entries: map<string, Entry>, now: int, n: string, e': Entry)
    requires TimesInv(entries, now) && Timely(e', now)
    ensures TimesInv(entries[n := e'], now)
  {
    hide Timely;
  }

  lemma WorkerKept(cfg: Config, entries: map<string, Entry>, leases: map<string, Lease>, b: Ctl, now: int,
                   n: string, e': Entry)
    requires WorkerInv(cfg, entries, leases, b, now) && n in entries && Stays(entries[n], e')
    ensures WorkerInv(cfg, entries[n := e'], leases, b, now)
  {
    hide CtlInv;
    if b.Busy? && b.n == n { CtlSurvives(cfg, leases, entries[n], e', b, now); }
  }

  lemma PutStays(cfg: Config, s: State, n: string, e': Entry)
    requires Inv(cfg, s) && n in s.entries && EntryInv(cfg, e') && Stays(s.entries[n], e')
    ensures Inv(cfg, Put(s, n, e'))
  {
    assert GoodName(n) && Evolves(s.entries[n], e') && e'.r.spec == s.entries[n].r.spec;
    assert Timely(e', s.now);
    LeaseSurvives(cfg, s.leases, n, s.entries[n], e');
    hide TimesInv, JudgedInv, Timely, EntriesInv, EntryInv, LeaseInv, LeasesInv, WorkerInv, TasksInv, TokensInv, Stays, GoodName, Evolves;
    ReadersKept(s.entries, s.tasks, s.tokens, n, e');
    EntriesKept(cfg, s.entries, n, e');
    TimesKept(s.entries, s.now, n, e');
    LeasesPut(cfg, s.entries, s.leases, n, e');
    WorkerKept(cfg, s.entries, s.leases, s.ctl, s.now, n, e');
  }

  lemma SetTaskKeeps(cfg: Config, s: State, id: nat, task: Task)
    requires Inv(cfg, s)
    requires !task.Finished? ==> task.n in s.entries && TaskInv(s.entries[task.n], task)
    requires JudgedDue(cfg, task, s.now)
    ensures Inv(cfg, SetTask(s, id, task))
  {
    hide TimesInv, JudgedDue, EntriesInv, LeasesInv, WorkerInv, TaskInv, TokensInv;
  }

  lemma SetCtlKeeps(cfg: Config, s: State, b: Ctl, crashed: bool)
    requires Inv(cfg, s) && WorkerInv(cfg, s.entries, s.leases, b, s.now)
    ensures Inv(cfg, s.(ctl := b, crashed := crashed))
  {
    hide TimesInv, JudgedInv, EntriesInv, LeasesInv, WorkerInv, TasksInv, TokensInv;
  }

  lemma SetAuditsKeeps(cfg: Config, s: State, audits: map<string, AuditKey>)
    requires Inv(cfg, s)
    ensures Inv(cfg, s.(audits := audits))
  {
    hide TimesInv, JudgedInv, EntriesInv, LeasesInv, WorkerInv, TasksInv, TokensInv;
  }

  lemma SetTokensKeeps(cfg: Config, s: State, tokens: set<string>)
    requires Inv(cfg, s) && TokensInv(s.entries, tokens)
    ensures Inv(cfg, s.(tokens := tokens))
  {
    hide TimesInv, JudgedInv, EntriesInv, LeasesInv, WorkerInv, TasksInv, TokensInv;
  }

  lemma TickKeeps(cfg: Config, s: State, d: nat)
    requires Inv(cfg, s)
    ensures Inv(cfg, s.(now := s.now + d))
  {
    hide EntriesInv, LeasesInv, PcInv, TasksInv, TokensInv;
  }

  /** Names hold no slash, so a holder identity names one request. */
  lemma HolderIdInjective(a: Spec, m: string, b: Spec, n: string)
    requires GoodName(m) && GoodName(n) && HolderId(a, m) == HolderId(b, n)
    ensures m == n && a.agent == b.agent
  {
    var h := HolderId(a, m);
    assert h[|a.agent|] == '/' && h[|b.agent|] == '/';
    assert forall i :: |a.agent| < i < |h| ==> h[i] == m[i - |a.agent| - 1];
    assert forall i :: |b.agent| < i < |h| ==> h[i] == n[i - |b.agent| - 1];
    assert m == h[|a.agent| + 1..] && n == h[|b.agent| + 1..];
    assert a.agent == h[..|a.agent|] && b.agent == h[..|b.agent|];
  }

  /** No lease carries the identity of a request yet to be created. */
  lemma NewHoldsNothing(cfg: Config, s: State, n: string, spec: Spec)
    requires Inv(cfg, s) && GoodName(n) && n !in s.entries
    ensures !Holds(cfg, s.leases, n, spec)
  {
    hide TimesInv, JudgedInv, EntryInv, LeaseInv, WorkerInv, TasksInv, TokensInv;
    if Holds(cfg, s.leases, n, spec) {
      var ln := LeaseName(cfg, spec.uri);
      assert Owned(cfg, s.entries, ln, s.leases[ln]);
      var m :| m in s.entries && IsOwner(cfg, m, s.entries[m], ln, s.leases[ln]);
      HolderIdInjective(s.entries[m].r.spec, m, spec, n);
    }
  }

  lemma OthersGrown(cfg: Config, s: State, n: string, e: Entry)
    requires TasksInv(s.entries, s.tasks) && TokensInv(s.entries, s.tokens)
    requires WorkerInv(cfg, s.entries, s.leases, s.ctl, s.now) && n !in s.entries
    ensures TasksInv(s.entries[n := e], s.tasks) && TokensInv(s.entries[n := e], s.tokens)
    ensures WorkerInv(cfg, s.entries[n := e], s.leases, s.ctl, s.now)
  {
    hide TaskInv, CtlInv;
  }

  lemma SubmitKeeps(cfg: Config, s: State, n: string, spec: Spec, origin: Origin)
    requires Inv(cfg, s) && OriginSound(NewEntry(spec, origin)) && GoodName(n) && n !in s.entries
    ensures Inv(cfg, Put(s, n, NewEntry(spec, origin)))
  {
    var e := NewEntry(spec, origin);
    hide TimesInv, JudgedInv, EntriesInv, EntryInv, LeasesInv, WorkerInv, TasksInv, TokensInv, GoodName, OriginSound;
    assert Timely(e, s.now);
    TimesKept(s.entries, s.now, n, e);
    NewHoldsNothing(cfg, s, n, spec);
    assert LeaseInv(cfg, s.leases, n, e);
    hide LeaseInv;
    NewSound(cfg, spec, origin);
    EntriesKept(cfg, s.entries, n, e);
    LeasesPut(cfg, s.entries, s.leases, n, e);
    OthersGrown(cfg, s, n, e);
  }
}

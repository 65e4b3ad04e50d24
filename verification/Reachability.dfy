/** The machine does run: requests do get approved, and two requests can be Approved under one
    lease name once a lease has run out, so mutual exclusion needs its exception. */
module Reachability {
  import opened Api
  import opened Lifecycle
  import opened History

  ghost predicate Reachable(cfg: Config, t0: int, s: State) {
    exists steps :: Run(cfg, t0, steps) == s
  }

  lemma Next(cfg: Config, t0: int, s: State, a: Step)
    requires Reachable(cfg, t0, s)
    ensures Reachable(cfg, t0, Do(cfg, s, a))
  {
    hide Run, Do;
    var steps :| Run(cfg, t0, steps) == s;
    RunOn(cfg, t0, steps, a);
  }

  /** The others are as they were. */
  ghost predicate OthersSame(s: State, s': State, n: string) {
    && s'.entries.Keys == s.entries.Keys + {n}
    && forall m :: m in s.entries && m != n ==> s'.entries[m].r == s.entries[m].r
  }

  lemma OthersOn(s: State, s1: State, s2: State, n: string)
    requires OthersSame(s, s1, n) && OthersSame(s1, s2, n)
    ensures OthersSame(s, s2, n)
  {
  }

  function Plain(agent: string, uri: string, t: int): Spec {
    Spec(agent, uri, t, false, None, false, false, false)
  }

  /** A request of ours between two reconciles. */
  predicate Waiting(s: State, n: string, spec: Spec, phase: Phase) {
    && s.ctl == Idle && n in s.entries && s.entries[n].live
    && s.entries[n].r.spec == spec && s.entries[n].r.phase == phase
    && (phase == Unset || phase == Pending ==>
          s.entries[n].r.conds == NO_CONDS.(submitted := s.entries[n].r.conds.submitted))
    && (phase == Unset ==> s.entries[n].r.conds == NO_CONDS)
  }

  // ---------- single steps ----------

  lemma Submit(cfg: Config, t0: int, s: State, n: string, spec: Spec) returns (s': State)
    requires Reachable(cfg, t0, s) && s.ctl == Idle && GoodName(n) && n !in s.entries && spec.created == s.now
    ensures Reachable(cfg, t0, s') && s' == Put(s, n, NewEntry(spec, Direct))
  {
    hide Reachable, GoodName, DoControl, DoReport, DoReview, DoCollect;
    s' := Do(cfg, s, SubmitDirect(n, spec));
    Next(cfg, t0, s, SubmitDirect(n, spec));
  }

  lemma Fetch1(cfg: Config, t0: int, s: State, n: string) returns (s': State)
    requires Reachable(cfg, t0, s) && s.ctl == Idle && Stored(s, n) && !Settled(s.entries[n].r.phase)
    requires s.entries[n].r.spec.ref.None?
    ensures Reachable(cfg, t0, s') && s' == s.(ctl := Busy(n, s.now, s.entries[n].r, None, Checked))
  {
    hide Reachable, Do;
    var s1 := Do(cfg, s, Fetch(n));
    ControlIs(cfg, s, Fetch(n));
    Next(cfg, t0, s, Fetch(n));
    s' := Do(cfg, s1, StepCheckResource(None));
    ControlIs(cfg, s1, StepCheckResource(None));
    Next(cfg, t0, s1, StepCheckResource(None));
  }

  lemma Decide(cfg: Config, t0: int, s: State) returns (s': State)
    requires Reachable(cfg, t0, s) && s.ctl.Busy? && s.ctl.pc == Checked
    ensures Reachable(cfg, t0, s') && s' == Decided(cfg, s, s.ctl, Allow, false)
  {
    hide Reachable, Decided, Do;
    ControlIs(cfg, s, StepDispatch(Allow, false));
    s' := Do(cfg, s, StepDispatch(Allow, false));
    Next(cfg, t0, s, StepDispatch(Allow, false));
  }

  lemma Advance1(cfg: Config, t0: int, s: State) returns (s': State)
    requires Reachable(cfg, t0, s) && s.ctl.Busy?
    ensures Reachable(cfg, t0, s') && s' == Advance(cfg, s, s.ctl)
  {
    hide Reachable, Advance, Do;
    ControlIs(cfg, s, StepAdvance);
    s' := Do(cfg, s, StepAdvance);
    Next(cfg, t0, s, StepAdvance);
  }

  /** The last audit record of a reconcile. */
  lemma Finish(cfg: Config, t0: int, s: State, n: string) returns (s': State)
    requires Reachable(cfg, t0, s) && s.ctl.Busy? && s.ctl.n == n && n in s.entries
    requires s.ctl.pc.Recording? && s.ctl.pc.k == 0 && |s.ctl.pc.tr.events| == 1
    ensures Reachable(cfg, t0, s') && OthersSame(s, s', n) && s'.ctl == Idle
    ensures s'.leases == s.leases && s'.now == s.now && s'.crashed == s.crashed
    ensures s'.entries[n].r == s.entries[n].r && s'.entries[n].live == s.entries[n].live
  {
    hide Reachable, AuditName, KeyOf;
    s' := Advance1(cfg, t0, s);
  }

  lemma Wait(cfg: Config, t0: int, s: State, d: nat) returns (s': State)
    requires Reachable(cfg, t0, s)
    ensures Reachable(cfg, t0, s') && s' == s.(now := s.now + d)
  {
    hide Reachable, Do;
    ControlIs(cfg, s, Tick(d));
    s' := Do(cfg, s, Tick(d));
    Next(cfg, t0, s, Tick(d));
  }

  // ---------- reconciles ----------

  /** The reconcile that initializes the phase. */
  lemma Initialized(cfg: Config, t0: int, s: State, n: string, spec: Spec) returns (s': State)
    requires Reachable(cfg, t0, s) && Waiting(s, n, spec, Unset) && spec == Plain(spec.agent, spec.uri, spec.created)
    ensures Reachable(cfg, t0, s') && Waiting(s', n, spec, Pending)
    ensures OthersSame(s, s', n) && s'.leases == s.leases && s'.now == s.now && s'.crashed == s.crashed
  {
    hide Reachable;
    var s1 := Fetch1(cfg, t0, s, n);
    var s2 := Decide(cfg, t0, s1);
    var cs := NO_CONDS.(submitted := Cond(true, s.now));
    var tr := Transition(Unset, Pending, Some(cs), NoCleanup, [RequestSubmitted]);
    assert s2 == s1.(ctl := Go(s1.ctl, Moving(tr)));
    var s3 := Advance1(cfg, t0, s2);
    assert s3.entries == s.entries[n := Moved(s.entries[n], tr, ReadBy(s2.ctl))];
    s' := Finish(cfg, t0, s3, n);
  }

  /** The reconcile has evaluated to Allow and stored it. */
  lemma Evaluating(cfg: Config, t0: int, s: State, n: string, spec: Spec) returns (s': State)
    requires Reachable(cfg, t0, s) && Waiting(s, n, spec, Pending) && spec.ref.None?
    ensures Reachable(cfg, t0, s') && OthersSame(s, s', n) && s'.leases == s.leases && s'.now == s.now && Stored(s', n)
    ensures s'.crashed == s.crashed
    ensures s'.entries[n].r.spec == spec
    ensures s'.ctl.Busy? && s'.ctl.n == n && s'.ctl.t == s.now && s'.ctl.pc == NotingAudit(true) && s'.ctl.ar.spec == spec
  {
    hide Reachable;
    var s1 := Fetch1(cfg, t0, s, n);
    var s2 := Decide(cfg, t0, s1);
    var cs := s.entries[n].r.conds.(evaluated := Cond(true, s.now), basis := Some(Allow));
    assert s2.ctl == Go(s1.ctl, Noting(cs, true));
    s' := Advance1(cfg, t0, s2);
    assert s'.entries == s.entries[n := Noted(s.entries[n], cs)];
  }

  lemma EvaluationRecorded(cfg: Config, t0: int, s: State, n: string) returns (s': State)
    requires Reachable(cfg, t0, s) && s.ctl.Busy? && s.ctl.n == n && s.ctl.pc == NotingAudit(true) && Stored(s, n)
    ensures Reachable(cfg, t0, s') && OthersSame(s, s', n) && s'.leases == s.leases && s'.now == s.now && Stored(s', n)
    ensures s'.crashed == s.crashed
    ensures s'.entries[n].r == s.entries[n].r && s'.ctl == Go(s.ctl, Acquiring)
  {
    hide Reachable, AuditName;
    s' := Advance1(cfg, t0, s);
  }

  /** A lease name that is free, or whose lease has run out. */
  predicate Takeable(leases: map<string, Lease>, ln: string, t: int) {
    ln in leases ==> LeaseExpired(leases[ln], t)
  }

  lemma Taken(cfg: Config, s: State, b: Ctl)
    requires b.Busy? && Takeable(s.leases, LeaseName(cfg, b.ar.spec.uri), b.t)
    ensures var s' := Acquire(cfg, s, b);
            s'.ctl == Won(b) && s'.now == s.now && OnlyLosses(s.entries, s'.entries)
  {
    AcquiredOnly(cfg, s, b);
    hide LeaseName, HolderId, MarkLost, OnlyLosses, Won;
  }

  lemma Acquired(cfg: Config, t0: int, s: State, n: string) returns (s': State)
    requires Reachable(cfg, t0, s) && s.ctl.Busy? && s.ctl.pc == Acquiring && s.ctl.n == n
    requires Stored(s, n) && Takeable(s.leases, LeaseName(cfg, s.ctl.ar.spec.uri), s.ctl.t)
    ensures Reachable(cfg, t0, s') && OthersSame(s, s', n) && s'.now == s.now && s'.ctl == Idle && s'.crashed == s.crashed
    ensures n in s'.entries && s'.entries[n].r.phase == Approved && s'.entries[n].r.spec == s.entries[n].r.spec
  {
    hide Reachable, LeaseName, HolderId, Acquire, Takeable;
    Taken(cfg, s, s.ctl);
    var s1 := Advance1(cfg, t0, s);
    assert s1.ctl == Won(s.ctl) && OnlyLosses(s.entries, s1.entries) && s1.now == s.now && s1.crashed == s.crashed;
    s' := Committed(cfg, t0, s, s1, n);
  }

  lemma LossesSame(s: State, s': State, n: string)
    requires OnlyLosses(s.entries, s'.entries) && n in s.entries
    ensures OthersSame(s, s', n) && s'.entries[n].r == s.entries[n].r && s'.entries[n].live == s.entries[n].live
  {
  }

  lemma Approves(cfg: Config, s: State, b: Ctl)
    requires b.Busy? && s.ctl == Won(b) && Stored(s, b.n)
    ensures var s', n := Advance(cfg, s, s.ctl), b.n;
            && OthersSame(s, s', n) && s'.now == s.now && s'.crashed == s.crashed
            && s'.entries[n].r.phase == Approved && s'.entries[n].r.spec == s.entries[n].r.spec
            && s'.ctl.Busy? && s'.ctl.n == n && s'.ctl.pc.Recording? && s'.ctl.pc.k == 0 && |s'.ctl.pc.tr.events| == 1
  {
    hide Advance;
    MovingAdvance(cfg, s, s.ctl);
  }

  /** The patch to Approved after the lock is won, and its record. */
  lemma Committed(cfg: Config, t0: int, s: State, s1: State, n: string) returns (s': State)
    requires Reachable(cfg, t0, s1) && s.ctl.Busy? && s.ctl.n == n && s1.ctl == Won(s.ctl) && Stored(s, n)
    requires OnlyLosses(s.entries, s1.entries) && s1.now == s.now && s1.crashed == s.crashed
    ensures Reachable(cfg, t0, s') && OthersSame(s, s', n) && s'.now == s.now && s'.ctl == Idle && s'.crashed == s.crashed
    ensures n in s'.entries && s'.entries[n].r.phase == Approved && s'.entries[n].r.spec == s.entries[n].r.spec
  {
    LossesSame(s, s1, n);
    hide Reachable, Advance, OnlyLosses, Won;
    Approves(cfg, s1, s.ctl);
    var s2 := Advance1(cfg, t0, s1);
    s' := Finish(cfg, t0, s2, n);
    OthersOn(s, s1, s2, n);
    OthersOn(s, s2, s', n);
  }

  /** Any fresh request whose lock can be taken can be approved, and nobody else moves. */
  lemma CanBeApproved(cfg: Config, t0: int, s: State, n: string, agent: string, uri: string) returns (s': State)
    requires Reachable(cfg, t0, s) && s.ctl == Idle && GoodName(n) && n !in s.entries
    requires Takeable(s.leases, LeaseName(cfg, uri), s.now)
    ensures Reachable(cfg, t0, s') && s'.ctl == Idle && s'.now == s.now && s'.crashed == s.crashed && OthersSame(s, s', n)
    ensures n in s'.entries && s'.entries[n].r.phase == Approved && s'.entries[n].r.spec == Plain(agent, uri, s.now)
  {
    hide Reachable, GoodName, LeaseName, Takeable;
    var spec := Plain(agent, uri, s.now);
    var s1 := Submit(cfg, t0, s, n, spec);
    assert Waiting(s1, n, spec, Unset) && OthersSame(s, s1, n);
    hide Waiting, OthersSame;
    var s2 := Initialized(cfg, t0, s1, n, spec);
    var s3 := Evaluating(cfg, t0, s2, n, spec);
    var s4 := EvaluationRecorded(cfg, t0, s3, n);
    s' := Acquired(cfg, t0, s4, n);
    OthersOn(s, s1, s2, n);
    OthersOn(s, s2, s3, n);
    OthersOn(s, s3, s4, n);
    OthersOn(s, s4, s', n);
  }

  /** Under every configuration some run, in which the controller never dies, has two requests Approved
      for one target. */
  lemma TwoApproved(cfg: Config, t0: int, agent: string, uri: string) returns (s: State)
    ensures Reachable(cfg, t0, s) && !s.crashed
    ensures "a" in s.entries && "b" in s.entries
    ensures s.entries["a"].r.phase == Approved && s.entries["b"].r.phase == Approved
    ensures s.entries["a"].r.spec.uri == uri && s.entries["b"].r.spec.uri == uri
  {
    var s0 := Init(t0);
    assert Run(cfg, t0, []) == s0;
    hide Reachable, LeaseName, Do;
    var s1 := CanBeApproved(cfg, t0, s0, "a", agent, uri);
    var ln := LeaseName(cfg, uri);
    var d := if ln in s1.leases then Max(s1.leases[ln].renewed + s1.leases[ln].seconds * SECOND - s1.now, 0) + 1 else 0;
    var s2 := Wait(cfg, t0, s1, d);
    s := CanBeApproved(cfg, t0, s2, "b", agent, uri);
  }
}

/** Where an approval comes from, step by step: the reconcile that approved the request, the generation
    it had read, the human decision it had read and who made it, and the evaluation it rests on. */
module Provenance {
  import opened Api
  import opened Lifecycle
  import opened Invariant
  import opened Entries
  import opened Steps
  import opened History
  import opened Guarantees
  import opened Grading

  // ---------- admission ----------

  /** Step `a` brings request `n` in, with this spec and origin. */
  predicate Admits(s: State, a: Step, n: string, spec: Spec, origin: Origin) {
    match a
    case SubmitHttp(m, body, gate, permitted) =>
      m == n && origin == Http(gate, permitted) && BodyOf(spec, body, s.now)
    case SubmitMcp(m, body, gate) => m == n && origin == Mcp(gate) && BodyOf(spec, body, s.now)
    case SubmitDirect(m, given) => m == n && origin == Direct && spec == given.(created := s.now)
    case _ => false
  }

  predicate BodyOf(spec: Spec, body: Body, now: int) {
    spec.agent == body.agent && spec.uri == body.uri && spec.ref == body.ref && spec.created == now
  }

  lemma StepAdmits(cfg: Config, s: State, a: Step, n: string)
    requires n in Do(cfg, s, a).entries && n !in s.entries
    ensures var e := Do(cfg, s, a).entries[n]; Admits(s, a, n, e.r.spec, e.origin)
  {
    hide DoReport, DoReview, DoCollect, DoControl;
    if Submits(a) { SubmitAdmits(s, a, n); } else { hide Do; NamesKept(cfg, s, a); }
  }

  lemma SubmitAdmits(s: State, a: Step, n: string)
    requires Submits(a) && n in DoSubmit(s, a).entries && n !in s.entries
    ensures var e := DoSubmit(s, a).entries[n]; Admits(s, a, n, e.r.spec, e.origin)
  {
    match a
    case SubmitHttp(m, body, gate, permitted) => AdmittedSound(body, gate, permitted, s.now);
    case SubmitMcp(m, body, gate) => McpAdmittedSound(body, gate, s.now);
    case SubmitDirect(m, given) =>
    hide AdmitHttp, AdmitMcp, OriginSound;
  }

  /** Every request came in at some step of the run, as what that step submitted. */
  lemma {:induction false} AdmissionHappened(cfg: Config, t0: int, steps: seq<Step>, n: string) returns (k: nat)
    requires n in Run(cfg, t0, steps).entries
    ensures k < |steps| && n !in Run(cfg, t0, steps[..k]).entries
    ensures var e := Run(cfg, t0, steps).entries[n]; Admits(Run(cfg, t0, steps[..k]), steps[k], n, e.r.spec, e.origin)
  {
    hide Run, Do, Admits, Follows;
    if steps == [] {
      NothingYet(cfg, t0, n);
      return;
    }
    var last := |steps| - 1;
    var s := Run(cfg, t0, steps[..last]);
    RunLast(cfg, t0, steps);
    if n in s.entries {
      k := AdmissionHappened(cfg, t0, steps[..last], n);
      assert steps[..last][..k] == steps[..k];
      RunFollows(cfg, t0, steps, last, n);
      SameOrigin(s.entries[n], Run(cfg, t0, steps).entries[n]);
    } else {
      k := last;
      StepAdmits(cfg, s, steps[last], n);
    }
  }

  lemma SameOrigin(e: Entry, e': Entry)
    requires Follows(e, e')
    ensures e'.r.spec == e.r.spec && e'.origin == e.origin
  {
  }

  // ---------- what may change approval and human decision ----------

  /** The controller's next call approves request `n`, having read this. */
  predicate ApprovesNow(s: State, n: string, read: Approval) {
    && s.ctl.Busy? && s.ctl.n == n && Stored(s, n) && read == ReadBy(s.ctl)
    && s.ctl.pc.Moving? && s.ctl.pc.tr.to == Approved
  }

  /** Handler `id` is about to store this human decision on request `n`. */
  predicate DecidesNow(s: State, id: nat, n: string, d: Decision) {
    InFlight(s, id) && s.tasks[id] == Deciding(n, d) && Stored(s, n)
  }

  /** The list the controller's next call stores on request `n`. */
  function NextList(s: State): Option<Conds> {
    if !s.ctl.Busy? then None
    else match s.ctl.pc
      case Moving(tr) => tr.conds
      case Noting(cs, _) => Some(cs)
      case _ => None
  }

  /** The controller's next call stores the first Approved=True on request `n`, of this time. */
  predicate Marks(s: State, n: string, at: Option<int>) {
    && s.ctl.Busy? && s.ctl.n == n && Stored(s, n) && s.entries[n].approvedAt.None?
    && NextList(s).Some? && NextList(s).value.approved.IsTrue() && at == Some(Since(NextList(s).value))
  }

  lemma MoveChanges(s: State, b: Ctl, tr: Transition, n: string)
    requires s.ctl == b && b.Busy? && b.pc == Moving(tr) && n in CommitMove(s, b, tr).entries
    ensures var e' := CommitMove(s, b, tr).entries[n];
            && n in s.entries && e'.r.human == s.entries[n].r.human
            && (e'.approvedAt == s.entries[n].approvedAt || Marks(s, n, e'.approvedAt))
            && (e'.approval == s.entries[n].approval || (e'.approval.Some? && ApprovesNow(s, n, e'.approval.value)))
  {
  }

  lemma DecisionChanges(s: State, id: nat, n: string)
    requires n in WriteDecision(s, id).entries
    ensures var e' := WriteDecision(s, id).entries[n];
            && n in s.entries && e'.approval == s.entries[n].approval && e'.approvedAt == s.entries[n].approvedAt
            && (e'.r.human == s.entries[n].r.human || (e'.r.human.Some? && DecidesNow(s, id, n, e'.r.human.value)))
  {
  }

  lemma NoteChanges(s: State, b: Ctl, cs: Conds, acquire: bool, n: string)
    requires s.ctl == b && b.Busy? && b.pc == Noting(cs, acquire) && n in CommitNote(s, b, cs, acquire).entries
    ensures var e' := CommitNote(s, b, cs, acquire).entries[n];
            && n in s.entries && e'.approval == s.entries[n].approval && e'.r.human == s.entries[n].r.human
            && (e'.approvedAt == s.entries[n].approvedAt || Marks(s, n, e'.approvedAt))
  {
  }

  /** Approval and human decision of request `n` are as before the step, or nothing yet. */
  predicate SameReads(s: State, s': State, n: string)
    requires n in s'.entries
  {
    if n in s.entries then s'.entries[n].approval == s.entries[n].approval && s'.entries[n].r.human == s.entries[n].r.human
    else s'.entries[n].approval.None? && s'.entries[n].r.human.None?
  }

  lemma NotableSame(cfg: Config, s: State, a: Step, n: string)
    requires Notable(s, a) && n in Do(cfg, s, a).entries
    ensures SameReads(s, Do(cfg, s, a), n)
  {
    hide Do, Advance, WriteVerdict, Follows, CommitNote;
    NotableStep(cfg, s, a);
    if a.StepWriteVerdict? {
      VerdictFollows(s, a.id);
    } else if s.ctl.pc.Noting? {
      NotingAdvance(cfg, s, s.ctl);
      NoteChanges(s, s.ctl, s.ctl.pc.conds, s.ctl.pc.acquire, n);
    } else {
      DispossessOnly(cfg, s, s.ctl);
    }
  }

  /** A new approval is the controller's, a new human decision some handler's. */
  lemma StepReads(cfg: Config, s: State, a: Step, n: string)
    requires n in Do(cfg, s, a).entries
    ensures var e' := Do(cfg, s, a).entries[n];
            || SameReads(s, Do(cfg, s, a), n)
            || (a == StepAdvance && n in s.entries && e'.r.human == s.entries[n].r.human
                && e'.approval.Some? && ApprovesNow(s, n, e'.approval.value))
            || (a.StepWriteDecision? && n in s.entries && e'.approval == s.entries[n].approval
                && e'.r.human.Some? && DecidesNow(s, a.id, n, e'.r.human.value))
  {
    hide Do, CommitMove, WriteDecision, ApprovesNow, DecidesNow, Notable, Follows;
    if Notable(s, a) {
      NotableSame(cfg, s, a, n);
    } else if Changes(s, a) {
      ChangingStep(cfg, s, a);
      if a.StepWriteDecision? { DecisionChanges(s, a.id, n); } else { MoveChanges(s, s.ctl, s.ctl.pc.tr, n); }
    } else {
      OtherUnmoved(cfg, s, a);
    }
  }

  // ---------- the first approval on the list ----------

  lemma StepMarks(cfg: Config, s: State, a: Step, n: string)
    requires n in Do(cfg, s, a).entries && Do(cfg, s, a).entries[n].approvedAt.Some?
    requires !(n in s.entries && s.entries[n].approvedAt == Do(cfg, s, a).entries[n].approvedAt)
    ensures a == StepAdvance && Marks(s, n, Do(cfg, s, a).entries[n].approvedAt)
  {
    hide Do, CommitMove, CommitNote, WriteDecision, WriteVerdict, Advance, Marks, Follows;
    if Notable(s, a) {
      NotableStep(cfg, s, a);
      if a.StepWriteVerdict? {
        VerdictFollows(s, a.id);
      } else if s.ctl.pc.Noting? {
        NotingAdvance(cfg, s, s.ctl);
        NoteChanges(s, s.ctl, s.ctl.pc.conds, s.ctl.pc.acquire, n);
      } else {
        DispossessOnly(cfg, s, s.ctl);
      }
    } else if Changes(s, a) {
      ChangingStep(cfg, s, a);
      if a.StepWriteDecision? { DecisionChanges(s, a.id, n); } else { MoveChanges(s, s.ctl, s.ctl.pc.tr, n); }
    } else {
      OtherUnmoved(cfg, s, a);
    }
  }

  /** The time it carries is that of the reconcile that stores it. */
  lemma MarkedInTime(cfg: Config, s: State, n: string, at: Option<int>)
    requires Inv(cfg, s) && Marks(s, n, at)
    ensures at == Some(s.ctl.t)
  {
    hide Inv, EntryInv, LeaseInv;
    AtCtl(cfg, s);
    hide Sourced, Holds, Barred, Grounded;
  }

  /** The approval time on record is that of the reconcile that first stored an Approved=True condition. */
  lemma {:induction false} FirstApprovalHappened(cfg: Config, t0: int, steps: seq<Step>, n: string) returns (m: nat)
    requires n in Run(cfg, t0, steps).entries && Run(cfg, t0, steps).entries[n].approvedAt.Some?
    ensures m < |steps| && steps[m] == StepAdvance
    ensures var s, at := Run(cfg, t0, steps[..m]), Run(cfg, t0, steps).entries[n].approvedAt;
            Marks(s, n, at) && at == Some(s.ctl.t)
  {
    hide Run, Do, Marks, Inv;
    if steps == [] {
      NothingYet(cfg, t0, n);
      return;
    }
    var last, at := |steps| - 1, Run(cfg, t0, steps).entries[n].approvedAt;
    var s := Run(cfg, t0, steps[..last]);
    RunLast(cfg, t0, steps);
    if n in s.entries && s.entries[n].approvedAt == at {
      m := FirstApprovalHappened(cfg, t0, steps[..last], n);
      assert steps[..last][..m] == steps[..m];
    } else {
      m := last;
      StepMarks(cfg, s, steps[last], n);
      RunKeeps(cfg, t0, steps[..last]);
      MarkedInTime(cfg, s, n, at);
      assert s.ctl.Busy? by { MarksBusy(s, n, at); }
    }
  }

  lemma MarksBusy(s: State, n: string, at: Option<int>)
    requires Marks(s, n, at)
    ensures s.ctl.Busy?
  {
  }

  // ---------- the approving step ----------

  lemma {:induction false} ApprovalHappened(cfg: Config, t0: int, steps: seq<Step>, n: string) returns (m: nat)
    requires n in Run(cfg, t0, steps).entries && Run(cfg, t0, steps).entries[n].approval.Some?
    ensures m < |steps| && steps[m] == StepAdvance
    ensures ApprovesNow(Run(cfg, t0, steps[..m]), n, Run(cfg, t0, steps).entries[n].approval.value)
  {
    hide Run, Do, ApprovesNow, DecidesNow;
    if steps == [] {
      NothingYet(cfg, t0, n);
      return;
    }
    var last := |steps| - 1;
    var s := Run(cfg, t0, steps[..last]);
    RunLast(cfg, t0, steps);
    StepReads(cfg, s, steps[last], n);
    if n in s.entries && s.entries[n].approval == Run(cfg, t0, steps).entries[n].approval {
      m := ApprovalHappened(cfg, t0, steps[..last], n);
      assert steps[..last][..m] == steps[..m];
    } else {
      m := last;
    }
  }

  // ---------- human decisions ----------

  /** Subject `d.reviewer`, not the requesting agent, made decision `d` on request `n` in a call that started
      at step `i` and stored it at step `w`. */
  predicate DecidedBy(cfg: Config, t0: int, steps: seq<Step>, i: nat, w: nat, n: string, d: Decision)
    requires i < w < |steps|
  {
    && steps[i].StepStartDecision? && steps[i] == StepStartDecision(steps[i].id, n, d.reviewer, d.approve)
    && Stored(Run(cfg, t0, steps[..i]), n) && Run(cfg, t0, steps[..i]).entries[n].r.spec.agent != d.reviewer
    && steps[w] == StepWriteDecision(steps[i].id) && DecidesNow(Run(cfg, t0, steps[..w]), steps[i].id, n, d)
  }

  ghost predicate WasDecided(cfg: Config, t0: int, steps: seq<Step>, n: string, d: Decision) {
    exists i, w :: 0 <= i < w < |steps| && DecidedBy(cfg, t0, steps, i, w, n, d)
  }

  lemma DecidedOn(cfg: Config, t0: int, steps: seq<Step>, k: nat, n: string, d: Decision)
    requires k <= |steps| && WasDecided(cfg, t0, steps[..k], n, d)
    ensures WasDecided(cfg, t0, steps, n, d)
  {
    hide Run, DecidesNow, Stored;
    var i, w :| 0 <= i < w < k && DecidedBy(cfg, t0, steps[..k], i, w, n, d);
    assert steps[..k][..i] == steps[..i] && steps[..k][..w] == steps[..w];
    assert DecidedBy(cfg, t0, steps, i, w, n, d);
  }

  lemma {:induction false} DecisionStarted(cfg: Config, t0: int, steps: seq<Step>, id: nat) returns (i: nat)
    requires id in Run(cfg, t0, steps).tasks && Run(cfg, t0, steps).tasks[id].Deciding?
    ensures i < |steps| && Starts(Run(cfg, t0, steps[..i]), steps[i], id, Run(cfg, t0, steps).tasks[id])
  {
    hide Run, Do, Starts;
    if steps == [] {
      NoTasksYet(cfg, t0, id);
      return;
    }
    var last, task := |steps| - 1, Run(cfg, t0, steps).tasks[id];
    var s := Run(cfg, t0, steps[..last]);
    RunLast(cfg, t0, steps);
    if id in s.tasks && s.tasks[id] == task {
      i := DecisionStarted(cfg, t0, steps[..last], id);
      assert steps[..last][..i] == steps[..i];
    } else {
      StartReview(cfg, s, steps[last], id);
      i := last;
    }
  }

  lemma DecidedNow(cfg: Config, t0: int, steps: seq<Step>, n: string, d: Decision)
    requires steps != [] && steps[|steps| - 1].StepWriteDecision?
    requires DecidesNow(Run(cfg, t0, steps[..|steps| - 1]), steps[|steps| - 1].id, n, d)
    ensures WasDecided(cfg, t0, steps, n, d)
  {
    hide Run, Stored;
    var w, id := |steps| - 1, steps[|steps| - 1].id;
    var i := DecisionStarted(cfg, t0, steps[..w], id);
    assert steps[..w][..i] == steps[..i];
    assert DecidedBy(cfg, t0, steps, i, w, n, d);
  }

  /** Every human decision on a stored request was made by someone in the run. */
  lemma {:induction false} HumanStored(cfg: Config, t0: int, steps: seq<Step>, n: string)
    requires n in Run(cfg, t0, steps).entries && Run(cfg, t0, steps).entries[n].r.human.Some?
    ensures WasDecided(cfg, t0, steps, n, Run(cfg, t0, steps).entries[n].r.human.value)
  {
    hide Run, Do, ApprovesNow, DecidesNow, WasDecided;
    if steps == [] {
      NothingYet(cfg, t0, n);
      return;
    }
    var last, d := |steps| - 1, Run(cfg, t0, steps).entries[n].r.human.value;
    var s := Run(cfg, t0, steps[..last]);
    RunLast(cfg, t0, steps);
    StepReads(cfg, s, steps[last], n);
    if n in s.entries && s.entries[n].r.human == Some(d) {
      HumanStored(cfg, t0, steps[..last], n);
      DecidedOn(cfg, t0, steps, last, n, d);
    } else {
      DecidedNow(cfg, t0, steps, n, d);
    }
  }

  // ---------- what the running reconcile has read ----------

  /** The reconcile `b'` goes on from `b`: same request, same time. */
  predicate GoesOn(b: Ctl, b': Ctl) {
    b.Busy? && b'.Busy? && b'.n == b.n && b'.t == b.t
  }

  /** How a step changes what the running reconcile has read. */
  predicate ReadsWell(s: State, a: Step, s': State) {
    s'.ctl.Busy? ==>
      && (|| (GoesOn(s.ctl, s'.ctl) && s'.ctl.ar.human == s.ctl.ar.human)
          || (s'.ctl.n in s'.entries && s'.ctl.ar.human == s'.entries[s'.ctl.n].r.human))
      && (s'.ctl.seen.Some? ==>
            && GoesOn(s.ctl, s'.ctl)
            && (s'.ctl.seen == s.ctl.seen || (a == StepCheckResource(s'.ctl.seen) && s.ctl.pc == Fetched)))
  }

  lemma SameReading(s: State, a: Step, s': State)
    requires s'.ctl == s.ctl
    ensures ReadsWell(s, a, s')
  {
  }

  lemma CommitReads(s: State, b: Ctl, tr: Transition, a: Step)
    requires s.ctl == b && b.Busy?
    ensures ReadsWell(s, a, CommitMove(s, b, tr))
  {
    hide Moved;
  }

  lemma NoteReads(s: State, b: Ctl, cs: Conds, acquire: bool, a: Step)
    requires s.ctl == b && b.Busy?
    ensures ReadsWell(s, a, CommitNote(s, b, cs, acquire))
  {
    hide Noted;
  }

  lemma AdvanceReads(cfg: Config, s: State, b: Ctl)
    requires s.ctl == b && b.Busy?
    ensures ReadsWell(s, StepAdvance, Advance(cfg, s, b))
  {
    hide Acquire, Released, CleanUp, CreateAudit, KeyOf, Holds, LeaseName, CommitMove, CommitNote;
    match b.pc
    case Moving(tr) => CommitReads(s, b, tr, StepAdvance);
    case Noting(cs, acquire) => NoteReads(s, b, cs, acquire, StepAdvance);
    case _ =>
  }

  lemma DispatchReads(cfg: Config, s: State, b: Ctl, result: Action, soak: bool)
    requires s.ctl == b && b.Busy?
    ensures ReadsWell(s, StepDispatch(result, soak), Decided(cfg, s, b, result, soak))
  {
    hide Initialize, ApprovalTimedOut, Holds, LeaseName, LeaseExpired;
  }

  lemma ControlReads(cfg: Config, s: State, a: Step)
    ensures ReadsWell(s, a, DoControl(cfg, s, a))
  {
    hide Advance, Decided;
    if a == StepAdvance && s.ctl.Busy? { AdvanceReads(cfg, s, s.ctl); }
    if a.StepDispatch? && s.ctl.Busy? { DispatchReads(cfg, s, s.ctl, a.result, a.soak); }
  }

  lemma StepReading(cfg: Config, s: State, a: Step)
    ensures ReadsWell(s, a, Do(cfg, s, a))
  {
    hide DoSubmit, DoReport, DoReview, DoCollect, DoControl, ReadsWell;
    if Submits(a) { SubmitAside(s, a); SameReading(s, a, DoSubmit(s, a)); }
    else if Reports(a) { ReportAside(s, a); SameReading(s, a, DoReport(s, a)); }
    else if Reviews(a) { ReviewAside(cfg, s, a); SameReading(s, a, DoReview(cfg, s, a)); }
    else if Collects(a) { CollectAside(cfg, s, a); SameReading(s, a, DoCollect(cfg, s, a)); }
    else { ControlReads(cfg, s, a); }
  }

  lemma {:induction false} HumanRead(cfg: Config, t0: int, steps: seq<Step>)
    requires Run(cfg, t0, steps).ctl.Busy? && Run(cfg, t0, steps).ctl.ar.human.Some?
    ensures var b := Run(cfg, t0, steps).ctl; WasDecided(cfg, t0, steps, b.n, b.ar.human.value)
  {
    hide Run, Do, WasDecided;
    if steps == [] {
      IdleFirst(cfg, t0);
      return;
    }
    var last, b := |steps| - 1, Run(cfg, t0, steps).ctl;
    var s := Run(cfg, t0, steps[..last]);
    RunLast(cfg, t0, steps);
    StepReading(cfg, s, steps[last]);
    if GoesOn(s.ctl, b) && s.ctl.ar.human == b.ar.human {
      HumanRead(cfg, t0, steps[..last]);
      DecidedOn(cfg, t0, steps, last, b.n, b.ar.human.value);
    } else {
      HumanStored(cfg, t0, steps, b.n);
    }
  }

  /** The reconcile running after step `m` read generation `g` of the governed resource at step `c`. */
  predicate ReadAt(cfg: Config, t0: int, steps: seq<Step>, c: nat, m: nat, g: int)
    requires c < m <= |steps|
  {
    && steps[c] == StepCheckResource(Some(g)) && Run(cfg, t0, steps[..c]).ctl.Busy? && Run(cfg, t0, steps[..c]).ctl.pc == Fetched
    && forall i :: c <= i <= m ==> GoesOn(Run(cfg, t0, steps[..i]).ctl, Run(cfg, t0, steps[..m]).ctl)
  }

  lemma {:induction false} GenerationRead(cfg: Config, t0: int, steps: seq<Step>) returns (c: nat)
    requires Run(cfg, t0, steps).ctl.Busy? && Run(cfg, t0, steps).ctl.seen.Some?
    ensures c < |steps| && ReadAt(cfg, t0, steps, c, |steps|, Run(cfg, t0, steps).ctl.seen.value)
  {
    hide Run, Do;
    if steps == [] {
      IdleFirst(cfg, t0);
      return;
    }
    var last, b := |steps| - 1, Run(cfg, t0, steps).ctl;
    var s := Run(cfg, t0, steps[..last]);
    RunLast(cfg, t0, steps);
    StepReading(cfg, s, steps[last]);
    assert steps[..|steps|] == steps;
    if s.ctl.seen == b.seen {
      c := GenerationRead(cfg, t0, steps[..last]);
      assert steps[..last][..last] == steps[..last];
      forall i | c <= i <= |steps| ensures GoesOn(Run(cfg, t0, steps[..i]).ctl, b) {
        if i <= last { assert steps[..last][..i] == steps[..i]; }
      }
      assert steps[..last][..c] == steps[..c];
    } else {
      c := last;
    }
  }

  // ---------- the whole story ----------

  /** At step `m` the controller approved the request, and everything it went by was there before: the
      evaluation was made at step `k` and stored at step `j` by one reconcile; the generation was read by
      the approving reconcile itself; and the human decision, if it read one, had been made and stored by
      someone other than the agent. */
  predicate TracedAt(cfg: Config, t0: int, steps: seq<Step>, m: nat, n: string, spec: Spec, read: Approval)
    requires m < |steps|
  {
    && steps[m] == StepAdvance && ApprovesNow(Run(cfg, t0, steps[..m]), n, read)
    && read.basis.Some? && read.basis.value != Deny
    && (read.basis.value == RequireApproval ==> spec.skipHuman || SaysApproved(read.human))
    && (spec.ref.Some? ==> read.seen == Some(spec.ref.value.generation))
  }

  lemma ApprovedReads(cfg: Config, s: State, n: string, read: Approval)
    requires Inv(cfg, s) && ApprovesNow(s, n, read)
    ensures n in s.entries && Grounded(s.entries[n], read.basis, SaysApproved(read.human)) && SeenAdmitted(s.entries[n].r.spec, read.seen)
  {
    hide Inv, EntryInv, LeaseInv;
    AtCtl(cfg, s);
    hide NextListOk, Sourced, Holds, Barred;
  }

  lemma CommittedOn(cfg: Config, t0: int, steps: seq<Step>, m: nat, k: nat, j: nat, n: string, result: Action)
    requires k < j < m <= |steps| && CommittedAt(cfg, t0, steps[..m], k, j, n, result)
    ensures CommittedAt(cfg, t0, steps, k, j, n, result)
  {
    hide Run, Commits, Evaluates;
    assert steps[..m][..k] == steps[..k] && steps[..m][..j] == steps[..j];
    forall i | k < i <= j ensures Run(cfg, t0, steps[..i]).ctl == Run(cfg, t0, steps[..j]).ctl {
      assert steps[..m][..i] == steps[..i];
    }
  }

  lemma ReadOn(cfg: Config, t0: int, steps: seq<Step>, m: nat, c: nat, g: int)
    requires c < m <= |steps| && ReadAt(cfg, t0, steps[..m], c, m, g)
    ensures ReadAt(cfg, t0, steps, c, m, g)
  {
    hide Run;
    assert steps[..m][..c] == steps[..c] && steps[..m][..m] == steps[..m];
    forall i | c <= i <= m ensures GoesOn(Run(cfg, t0, steps[..i]).ctl, Run(cfg, t0, steps[..m]).ctl) {
      assert steps[..m][..i] == steps[..i];
    }
  }

  lemma ApprovalTraced(cfg: Config, t0: int, steps: seq<Step>, n: string)
    requires n in Run(cfg, t0, steps).entries && Approved in Run(cfg, t0, steps).entries[n].path
    ensures var e := Run(cfg, t0, steps).entries[n];
            && e.approval.Some?
            && exists m ::
                 && 0 <= m < |steps| && TracedAt(cfg, t0, steps, m, n, e.r.spec, e.approval.value)
                 && (exists k, j :: 0 <= k < j < m && CommittedAt(cfg, t0, steps, k, j, n, e.approval.value.basis.value))
                 && (e.r.spec.ref.Some? ==>
                       exists c :: 0 <= c < m && ReadAt(cfg, t0, steps, c, m, e.r.spec.ref.value.generation))
                 && (e.approval.value.human.Some? ==> WasDecided(cfg, t0, steps[..m], n, e.approval.value.human.value))
  {
    hide Run, ApprovesNow, CommittedAt, ReadAt, WasDecided, Inv, EvaluatedAt;
    ApprovalProvenance(cfg, t0, steps, n);
    var e := Run(cfg, t0, steps).entries[n];
    var read := e.approval.value;
    var m := ApprovalHappened(cfg, t0, steps, n);
    var s := Run(cfg, t0, steps[..m]);
    RunKeeps(cfg, t0, steps[..m]);
    ApprovedReads(cfg, s, n, read);
    EvaluationHappened(cfg, t0, steps[..m], n, read.basis.value);
    var k, j :| 0 <= k < j < m && CommittedAt(cfg, t0, steps[..m], k, j, n, read.basis.value);
    CommittedOn(cfg, t0, steps, m, k, j, n, read.basis.value);
    ReconcileReads(cfg, t0, steps, m, n, read);
    assert TracedAt(cfg, t0, steps, m, n, e.r.spec, read);
  }

  lemma ReconcileReads(cfg: Config, t0: int, steps: seq<Step>, m: nat, n: string, read: Approval)
    requires m <= |steps| && ApprovesNow(Run(cfg, t0, steps[..m]), n, read)
    ensures read.human.Some? ==> WasDecided(cfg, t0, steps[..m], n, read.human.value)
    ensures read.seen.Some? ==> exists c :: 0 <= c < m && ReadAt(cfg, t0, steps, c, m, read.seen.value)
  {
    hide Run, ReadAt, WasDecided;
    if read.human.Some? { HumanRead(cfg, t0, steps[..m]); }
    if read.seen.Some? {
      var c := GenerationRead(cfg, t0, steps[..m]);
      ReadOn(cfg, t0, steps, m, c, read.seen.value);
    }
  }
}

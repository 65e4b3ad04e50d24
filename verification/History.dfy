/** The history kept with each request is true: it only grows, and what it says happened did
    happen at some step of the run. */
module History {
  import opened Api
  import opened Lifecycle

  /** A later record of the same request. */
  predicate Follows(e: Entry, e': Entry) {
    && e'.r.spec == e.r.spec && e'.origin == e.origin
    && e.path <= e'.path && e.committed <= e'.committed && e.verdicts <= e'.verdicts
    && (e.loss.Some? ==> e'.loss.Some?) && (e.approval.Some? ==> e'.approval.Some?)
    && (!e.live ==> !e'.live)
  }

  /** A later record with no new committed evaluation, loss or verdict. */
  predicate Remembers(e: Entry, e': Entry) {
    Follows(e, e') && e'.committed == e.committed && e'.loss == e.loss && e'.verdicts == e.verdicts
  }

  predicate AllFollow(entries: map<string, Entry>, entries': map<string, Entry>) {
    && (forall n :: n in entries ==> n in entries' && Follows(entries[n], entries'[n]))
    && (forall n :: n in entries' && n !in entries ==> NewHistory(entries'[n]))
  }

  /** Nothing has happened to a new request yet. */
  predicate NewHistory(e: Entry) {
    e.committed == {} && e.loss.None? && e.verdicts == [] && e.approval.None? && e.r.human.None? && e.approvedAt.None?
  }

  /** And with neither approval nor human decision changed. */
  predicate Unmoved(e: Entry, e': Entry) {
    Remembers(e, e') && e'.approval == e.approval && e'.r.human == e.r.human && e'.approvedAt == e.approvedAt
  }

  predicate AllUnmoved(entries: map<string, Entry>, entries': map<string, Entry>) {
    && AllFollow(entries, entries')
    && forall n :: n in entries ==> Unmoved(entries[n], entries'[n])
  }

  predicate AllRemember(entries: map<string, Entry>, entries': map<string, Entry>) {
    && AllFollow(entries, entries')
    && forall n :: n in entries ==> Remembers(entries[n], entries'[n])
  }

  lemma SameUnmoved(entries: map<string, Entry>)
    ensures AllUnmoved(entries, entries)
  {
  }

  lemma UnmovedRemembers(entries: map<string, Entry>, entries': map<string, Entry>)
    requires AllUnmoved(entries, entries')
    ensures AllRemember(entries, entries')
  {
  }

  lemma PutUnmoved(entries: map<string, Entry>, n: string, e': Entry)
    requires n in entries && Unmoved(entries[n], e')
    ensures AllUnmoved(entries, entries[n := e'])
  {
    SameUnmoved(entries);
  }

  lemma PutRemembers(entries: map<string, Entry>, n: string, e': Entry)
    requires n in entries && Remembers(entries[n], e')
    ensures AllRemember(entries, entries[n := e'])
  {
    SameUnmoved(entries);
  }

  lemma PutFollows(entries: map<string, Entry>, n: string, e': Entry)
    requires n in entries && Follows(entries[n], e')
    ensures AllFollow(entries, entries[n := e'])
  {
    SameUnmoved(entries);
  }

  /** Nothing but losses has been added. */
  predicate OnlyLosses(entries: map<string, Entry>, entries': map<string, Entry>) {
    && entries'.Keys == entries.Keys
    && forall n :: n in entries ==>
         entries'[n] == entries[n] || (entries'[n].loss.Some? && entries'[n] == entries[n].(loss := entries'[n].loss))
  }

  lemma LossesFollow(entries: map<string, Entry>, entries': map<string, Entry>)
    requires OnlyLosses(entries, entries')
    ensures AllFollow(entries, entries')
  {
  }

  // ---------- steps beside the controller ----------

  lemma SubmitAside(s: State, a: Step)
    requires Submits(a)
    ensures DoSubmit(s, a).ctl == s.ctl && DoSubmit(s, a).leases == s.leases
  {
    hide AdmitHttp, AdmitMcp, Submitted;
  }

  lemma ReportAside(s: State, a: Step)
    requires Reports(a)
    ensures DoReport(s, a).ctl == s.ctl && DoReport(s, a).leases == s.leases
  {
    hide Begin, ReadConds, WriteConds, SetTask, AbandonConds;
  }

  lemma ReviewAside(cfg: Config, s: State, a: Step)
    requires Reviews(a)
    ensures DoReview(cfg, s, a).ctl == s.ctl && DoReview(cfg, s, a).leases == s.leases
  {
    hide StartDecision, WriteDecision, StartVerdict, WriteVerdict, PutResult;
  }

  lemma CollectAside(cfg: Config, s: State, a: Step)
    requires Collects(a)
    ensures DoCollect(cfg, s, a).ctl == s.ctl && DoCollect(cfg, s, a).leases == s.leases
  {
    hide Begin, Judge, Delete, CollectAudit, Collect, DropOrphan;
  }

  /** A step of the clock or the controller. */
  lemma ControlIs(cfg: Config, s: State, a: Step)
    requires !Submits(a) && !Reports(a) && !Reviews(a) && !Collects(a)
    ensures Do(cfg, s, a) == DoControl(cfg, s, a)
  {
    hide DoControl, DoSubmit, DoReport, DoReview, DoCollect;
  }

  // ---------- controller steps ----------

  lemma MarkedOnly(cfg: Config, entries: map<string, Entry>, ln: string, l: Lease, why: Loss)
    ensures OnlyLosses(entries, MarkLost(cfg, entries, ln, l, why))
  {
    hide ActiveHolder;
  }

  lemma RemovedOnly(cfg: Config, s: State, ln: string, why: Loss)
    ensures OnlyLosses(s.entries, RemoveLease(cfg, s, ln, why).entries)
  {
    hide OnlyLosses, MarkLost;
    SameOnly(s.entries);
    if ln in s.leases { MarkedOnly(cfg, s.entries, ln, s.leases[ln], why); }
  }

  lemma CleanedOnly(cfg: Config, s: State, b: Ctl, tr: Transition)
    requires b.Busy?
    ensures OnlyLosses(s.entries, CleanUp(cfg, s, b, tr).entries)
  {
    hide RemoveLease, Holds, Since;
    RemovedOnly(cfg, s, LeaseName(cfg, b.ar.spec.uri), GivenUp(b.t, Since(b.ar.conds)));
  }

  lemma AcquiredOnly(cfg: Config, s: State, b: Ctl)
    requires b.Busy?
    ensures OnlyLosses(s.entries, Acquire(cfg, s, b).entries)
  {
    hide OnlyLosses, MarkLost, LeaseExpired, Won, GaveUpWaiting, OwnLease, LockWait;
    SameOnly(s.entries);
    var ln := LeaseName(cfg, b.ar.spec.uri);
    if ln in s.leases {
      MarkedOnly(cfg, s.entries, ln, s.leases[ln], Lapsed(b.t, s.leases[ln].renewed, s.leases[ln].seconds));
    }
  }

  lemma AuditUnmoved(cfg: Config, s: State, n: string, k: AuditKey)
    ensures AllUnmoved(s.entries, CreateAudit(cfg, s, n, k).entries)
  {
    SameUnmoved(s.entries);
    if n in s.entries { PutUnmoved(s.entries, n, Recorded(s.entries[n], k)); }
    hide AllUnmoved, AuditName;
  }

  lemma MoveRemembers(s: State, b: Ctl, tr: Transition)
    requires b.Busy?
    ensures AllRemember(s.entries, CommitMove(s, b, tr).entries)
  {
    SameUnmoved(s.entries);
    UnmovedRemembers(s.entries, s.entries);
    if Stored(s, b.n) {
      PutRemembers(s.entries, b.n, Moved(s.entries[b.n], tr, ReadBy(b)));
    }
    hide AllRemember;
  }

  lemma NoteFollows(s: State, b: Ctl, cs: Conds, acquire: bool)
    requires b.Busy?
    ensures AllFollow(s.entries, CommitNote(s, b, cs, acquire).entries)
  {
    SameFollows(s.entries);
    if Stored(s, b.n) { PutFollows(s.entries, b.n, Noted(s.entries[b.n], cs)); }
    hide AllFollow;
  }

  /** The controller calls that may take a lease away. */
  predicate Dispossesses(pc: Pc) {
    pc.Releasing? || pc.Cleaning? || pc == Acquiring
  }

  lemma AdvanceUnmoved(cfg: Config, s: State, b: Ctl)
    requires b.Busy? && !Dispossesses(b.pc) && !b.pc.Noting? && !b.pc.Moving?
    ensures AllUnmoved(s.entries, Advance(cfg, s, b).entries)
  {
    hide AllUnmoved, CommitMove, CommitNote, CreateAudit, KeyOf, AfterRecord, Holds;
    SameUnmoved(s.entries);
    match b.pc
    case Recording(tr, k) => if k < |tr.events| { AuditUnmoved(cfg, s, b.n, KeyOf(b.n, tr, tr.events[k])); }
    case NotingAudit(_) => AuditUnmoved(cfg, s, b.n, AuditKey(b.n, PolicyEvaluated, Pending, Unset));
    case _ =>
  }

  lemma DispossessOnly(cfg: Config, s: State, b: Ctl)
    requires b.Busy? && Dispossesses(b.pc)
    ensures OnlyLosses(s.entries, Advance(cfg, s, b).entries)
  {
    hide OnlyLosses, RemoveLease, CleanUp, Acquire, Since, Holds;
    match b.pc
    case Releasing(tr) =>
      RemovedOnly(cfg, s, LeaseName(cfg, b.ar.spec.uri), GivenUp(b.t, Since(b.ar.conds)));
      assert OnlyLosses(s.entries, s.entries) by { SameOnly(s.entries); }
    case Cleaning(tr) => CleanedOnly(cfg, s, b, tr);
    case Acquiring => AcquiredOnly(cfg, s, b);
  }

  lemma SameOnly(entries: map<string, Entry>)
    ensures OnlyLosses(entries, entries)
  {
  }

  lemma SameFollows(entries: map<string, Entry>)
    ensures AllFollow(entries, entries)
  {
  }

  // ---------- gateway and collector steps ----------

  lemma SubmitUnmoved(s: State, n: string, spec: Spec, origin: Origin)
    ensures AllUnmoved(s.entries, Submitted(s, n, spec, origin).entries)
  {
    SameUnmoved(s.entries);
  }

  lemma WriteUnmoved(s: State, id: nat)
    ensures AllUnmoved(s.entries, WriteConds(s, id).entries)
  {
    SameUnmoved(s.entries);
    if InFlight(s, id) && Stored(s, s.tasks[id].n) {
      var task, n, e := s.tasks[id], s.tasks[id].n, s.entries[s.tasks[id].n];
      if task.Conditioning? && task.snap.Some? && task.todo != [] {
        PutUnmoved(s.entries, n, Signaled(e, task.snap.value, task.todo[0], s.now));
      }
    }
    hide AllUnmoved;
  }

  lemma DecisionRemembers(s: State, id: nat)
    ensures AllRemember(s.entries, WriteDecision(s, id).entries)
  {
    SameUnmoved(s.entries);
    UnmovedRemembers(s.entries, s.entries);
    if InFlight(s, id) && Stored(s, s.tasks[id].n) && s.tasks[id].Deciding? {
      PutRemembers(s.entries, s.tasks[id].n, HumanDecided(s.entries[s.tasks[id].n], s.tasks[id].decision));
    }
    hide AllRemember;
  }

  predicate KeptByVerdict(e: Entry, e': Entry) {
    && e'.committed == e.committed && e'.loss == e.loss
    && e'.approval == e.approval && e'.r.human == e.r.human && e'.approvedAt == e.approvedAt
  }

  predicate AllKeptByVerdict(entries: map<string, Entry>, entries': map<string, Entry>) {
    && AllFollow(entries, entries')
    && forall n :: n in entries' ==> n in entries && KeptByVerdict(entries[n], entries'[n])
  }

  lemma PutVerdict(entries: map<string, Entry>, n: string, v: Verdict)
    requires n in entries
    ensures AllKeptByVerdict(entries, entries) && AllKeptByVerdict(entries, entries[n := GradedEntry(entries[n], v)])
  {
    SameFollows(entries);
    PutFollows(entries, n, GradedEntry(entries[n], v));
    hide AllFollow;
  }

  lemma NoVerdict(entries: map<string, Entry>)
    ensures AllKeptByVerdict(entries, entries)
  {
    SameFollows(entries);
    hide AllFollow;
  }

  /** Writing a verdict adds it to the history of its request and changes no other. */
  lemma VerdictFollows(s: State, id: nat)
    ensures AllKeptByVerdict(s.entries, WriteVerdict(s, id).entries)
  {
    hide AllKeptByVerdict, GradedEntry;
    NoVerdict(s.entries);
    if InFlight(s, id) && Stored(s, s.tasks[id].n) && s.tasks[id].Grading? {
      PutVerdict(s.entries, s.tasks[id].n, s.tasks[id].verdict);
    }
  }

  lemma DeleteUnmoved(s: State, n: string, collected: bool)
    ensures AllUnmoved(s.entries, Delete(s, n, collected).entries)
    ensures AllUnmoved(s.entries, PutResult(s, n).entries)
  {
    SameUnmoved(s.entries);
    if Stored(s, n) {
      PutUnmoved(s.entries, n, DeletedEntry(s.entries[n], s.now, collected));
      PutUnmoved(s.entries, n, Touched(s.entries[n]));
    }
    hide AllUnmoved;
  }

  lemma SweepUnmoved(s: State, a: string)
    ensures AllUnmoved(s.entries, Sweep(s, a).entries)
  {
    SameUnmoved(s.entries);
    if a in s.audits && s.audits[a].request in s.entries {
      PutUnmoved(s.entries, s.audits[a].request, s.entries[s.audits[a].request].(swept := true));
    }
    hide AllUnmoved;
  }

  /** The steps that may commit an evaluation, dispossess or grade. */
  predicate Notable(s: State, a: Step) {
    a.StepWriteVerdict? || (s.ctl.Busy? && a == StepAdvance && (s.ctl.pc.Noting? || Dispossesses(s.ctl.pc)))
  }

  lemma SubmitsUnmoved(s: State, a: Step)
    requires Submits(a)
    ensures AllUnmoved(s.entries, DoSubmit(s, a).entries)
  {
    hide AllUnmoved, Submitted, AdmitHttp, AdmitMcp;
    SameUnmoved(s.entries);
    match a
    case SubmitHttp(n, body, gate, permitted) =>
      var spec := AdmitHttp(body, gate, permitted, s.now);
      if spec.Some? { SubmitUnmoved(s, n, spec.value, Http(gate, permitted)); }
    case SubmitMcp(n, body, gate) => SubmitUnmoved(s, n, AdmitMcp(body, gate, s.now), Mcp(gate));
    case SubmitDirect(n, spec) => SubmitUnmoved(s, n, spec.(created := s.now), Direct);
  }

  lemma ReportsUnmoved(s: State, a: Step)
    requires Reports(a)
    ensures AllUnmoved(s.entries, DoReport(s, a).entries)
  {
    hide AllUnmoved, Begin, ReadConds, WriteConds, SetTask, AbandonConds;
    SameUnmoved(s.entries);
    if a.StepWriteConds? { WriteUnmoved(s, a.id); }
  }

  lemma ReviewsUnmoved(cfg: Config, s: State, a: Step)
    requires Reviews(a) && !a.StepWriteVerdict? && !a.StepWriteDecision?
    ensures AllUnmoved(s.entries, DoReview(cfg, s, a).entries)
  {
    hide AllUnmoved, StartDecision, WriteDecision, StartVerdict, WriteVerdict, PutResult;
    SameUnmoved(s.entries);
    match a
    case StepPutResult(n) => DeleteUnmoved(s, n, false);
    case _ =>
  }

  lemma CollectsUnmoved(cfg: Config, s: State, a: Step)
    requires Collects(a)
    ensures AllUnmoved(s.entries, DoCollect(cfg, s, a).entries)
  {
    hide AllUnmoved, Begin, Judge, Delete, Sweep, Collectable;
    SameUnmoved(s.entries);
    match a
    case StartCollect(id, n) =>
    case StepJudge(id) =>
    case StepCollectAudit(id, a) => SweepUnmoved(s, a);
    case StepCollect(id) => if Collectable(s, id) { CollectableTask(s, id); DeleteUnmoved(s, s.tasks[id].n, true); }
    case StepDropOrphan(a) => SweepUnmoved(s, a);
    case DedupDelete(n) => DeleteUnmoved(s, n, false);
  }

  lemma CollectableTask(s: State, id: nat)
    requires Collectable(s, id)
    ensures InFlight(s, id)
  {
  }

  /** The steps that move a request or store a human decision. */
  predicate Changes(s: State, a: Step) {
    a.StepWriteDecision? || (s.ctl.Busy? && a == StepAdvance && s.ctl.pc.Moving?)
  }

  lemma ControlUnmoved(cfg: Config, s: State, a: Step)
    requires !Notable(s, a) && !Changes(s, a)
    ensures AllUnmoved(s.entries, DoControl(cfg, s, a).entries)
  {
    hide AllUnmoved, StepFetch, CheckResource, Decided, Advance, Tolerate;
    SameUnmoved(s.entries);
    if a == StepAdvance && s.ctl.Busy? { AdvanceUnmoved(cfg, s, s.ctl); }
  }

  lemma OtherUnmoved(cfg: Config, s: State, a: Step)
    requires !Notable(s, a) && !Changes(s, a)
    ensures AllUnmoved(s.entries, Do(cfg, s, a).entries)
  {
    hide AllUnmoved, DoSubmit, DoReport, DoReview, DoCollect, DoControl, Dispossesses;
    if Submits(a) { SubmitsUnmoved(s, a); }
    else if Reports(a) { ReportsUnmoved(s, a); }
    else if Reviews(a) { ReviewsUnmoved(cfg, s, a); }
    else if Collects(a) { CollectsUnmoved(cfg, s, a); }
    else { ControlUnmoved(cfg, s, a); }
  }

  lemma ChangingStep(cfg: Config, s: State, a: Step)
    requires Changes(s, a)
    ensures a.StepWriteDecision? ==> Do(cfg, s, a) == WriteDecision(s, a.id)
    ensures !a.StepWriteDecision? ==> Do(cfg, s, a) == CommitMove(s, s.ctl, s.ctl.pc.tr)
  {
    hide WriteDecision, DoSubmit, DoReport, DoCollect, CommitMove, Advance;
    if !a.StepWriteDecision? { MovingAdvance(cfg, s, s.ctl); }
  }

  lemma OtherRemembers(cfg: Config, s: State, a: Step)
    requires !Notable(s, a)
    ensures AllRemember(s.entries, Do(cfg, s, a).entries)
  {
    hide AllRemember, AllUnmoved, Do, CommitMove, WriteDecision, Notable;
    if !Changes(s, a) {
      OtherUnmoved(cfg, s, a);
      UnmovedRemembers(s.entries, Do(cfg, s, a).entries);
    } else {
      ChangingStep(cfg, s, a);
      if a.StepWriteDecision? { DecisionRemembers(s, a.id); } else { MoveRemembers(s, s.ctl, s.ctl.pc.tr); }
    }
  }

  /** What a notable step does. */
  lemma NotableStep(cfg: Config, s: State, a: Step)
    requires Notable(s, a)
    ensures a == StepAdvance ==> Do(cfg, s, a) == Advance(cfg, s, s.ctl)
    ensures a.StepWriteVerdict? ==> Do(cfg, s, a) == WriteVerdict(s, a.id)
  {
    hide Advance, WriteVerdict, DoSubmit, DoReport, DoCollect;
  }

  lemma MovingAdvance(cfg: Config, s: State, b: Ctl)
    requires b.Busy? && b.pc.Moving?
    ensures Advance(cfg, s, b) == CommitMove(s, b, b.pc.tr)
  {
    hide CommitMove;
  }

  lemma NotingAdvance(cfg: Config, s: State, b: Ctl)
    requires b.Busy? && b.pc.Noting?
    ensures Advance(cfg, s, b) == CommitNote(s, b, b.pc.conds, b.pc.acquire)
  {
    hide CommitNote;
  }

  lemma StepFollows(cfg: Config, s: State, a: Step)
    ensures AllFollow(s.entries, Do(cfg, s, a).entries)
  {
    hide Do, Advance, CommitNote, WriteVerdict, Follows;
    if Notable(s, a) {
      NotableStep(cfg, s, a);
      if a.StepWriteVerdict? {
        VerdictFollows(s, a.id);
      } else if s.ctl.pc.Noting? {
        NotingAdvance(cfg, s, s.ctl);
        NoteFollows(s, s.ctl, s.ctl.pc.conds, s.ctl.pc.acquire);
      } else {
        DispossessOnly(cfg, s, s.ctl);
        LossesFollow(s.entries, Do(cfg, s, a).entries);
      }
    } else {
      OtherRemembers(cfg, s, a);
    }
  }

  // ---------- names ----------

  lemma ReportNames(s: State, a: Step)
    requires Reports(a)
    ensures DoReport(s, a).entries.Keys == s.entries.Keys
  {
    hide AbandonConds, Signaled, Begin, ReadConds, SetTask;
  }

  lemma ReviewNames(cfg: Config, s: State, a: Step)
    requires Reviews(a)
    ensures DoReview(cfg, s, a).entries.Keys == s.entries.Keys
  {
    hide HumanDecided, GradedEntry, Touched, StartDecision, StartVerdict, SetTask;
  }

  lemma CollectNames(cfg: Config, s: State, a: Step)
    requires Collects(a)
    ensures DoCollect(cfg, s, a).entries.Keys == s.entries.Keys
  {
    hide DeletedEntry, Collectable, Begin, Judge;
  }

  lemma ControlNames(cfg: Config, s: State, a: Step)
    ensures DoControl(cfg, s, a).entries.Keys == s.entries.Keys
  {
    hide StepFetch, CheckResource, Decided, Tolerate, Advance;
    if a == StepAdvance && s.ctl.Busy? { AdvanceNames(cfg, s, s.ctl); }
  }

  lemma AdvanceNames(cfg: Config, s: State, b: Ctl)
    requires b.Busy?
    ensures Advance(cfg, s, b).entries.Keys == s.entries.Keys
  {
    hide Acquire, CleanUp, Released, CreateAudit, CommitMove, CommitNote, KeyOf, AfterRecord;
    match b.pc
    case Moving(tr) => MoveNames(s, b, tr);
    case Noting(cs, acquire) => NoteNames(s, b, cs, acquire);
    case Recording(tr, k) => if k < |tr.events| { AuditNames(cfg, s, b.n, KeyOf(b.n, tr, tr.events[k])); }
    case NotingAudit(_) => AuditNames(cfg, s, b.n, AuditKey(b.n, PolicyEvaluated, Pending, Unset));
    case Releasing(tr) => DispossessNames(cfg, s, b);
    case Cleaning(tr) => DispossessNames(cfg, s, b);
    case Acquiring => DispossessNames(cfg, s, b);
    case _ =>
  }

  lemma DispossessNames(cfg: Config, s: State, b: Ctl)
    requires b.Busy? && Dispossesses(b.pc)
    ensures Advance(cfg, s, b).entries.Keys == s.entries.Keys
  {
    hide Advance;
    DispossessOnly(cfg, s, b);
  }

  lemma MoveNames(s: State, b: Ctl, tr: Transition)
    requires b.Busy?
    ensures CommitMove(s, b, tr).entries.Keys == s.entries.Keys
  {
    hide Moved;
  }

  lemma NoteNames(s: State, b: Ctl, cs: Conds, acquire: bool)
    requires b.Busy?
    ensures CommitNote(s, b, cs, acquire).entries.Keys == s.entries.Keys
  {
    hide Noted;
  }

  lemma AuditNames(cfg: Config, s: State, n: string, k: AuditKey)
    ensures CreateAudit(cfg, s, n, k).entries.Keys == s.entries.Keys
  {
    hide AuditName, Recorded;
  }

  /** Requests come in through admission only. */
  lemma NamesKept(cfg: Config, s: State, a: Step)
    requires !Submits(a)
    ensures Do(cfg, s, a).entries.Keys == s.entries.Keys
  {
    hide DoSubmit, DoReport, DoReview, DoCollect, DoControl;
    if Reports(a) { ReportNames(s, a); }
    else if Reviews(a) { ReviewNames(cfg, s, a); }
    else if Collects(a) { CollectNames(cfg, s, a); }
    else { ControlNames(cfg, s, a); }
  }

  // ---------- runs ----------

  lemma FollowsOn(e: Entry, entries: map<string, Entry>, entries': map<string, Entry>, n: string)
    requires n in entries && Follows(e, entries[n]) && AllFollow(entries, entries')
    ensures n in entries' && Follows(e, entries'[n])
  {
  }

  lemma SelfFollows(e: Entry)
    ensures Follows(e, e)
  {
  }

  /** Whatever history says after some steps of a run it still says at the end. */
  lemma {:induction false} RunFollows(cfg: Config, t0: int, steps: seq<Step>, k: nat, n: string)
    requires k <= |steps| && n in Run(cfg, t0, steps[..k]).entries
    ensures n in Run(cfg, t0, steps).entries
    ensures Follows(Run(cfg, t0, steps[..k]).entries[n], Run(cfg, t0, steps).entries[n])
  {
    hide Run, Do, Follows, AllFollow;
    if k == |steps| {
      assert steps[..k] == steps;
      SelfFollows(Run(cfg, t0, steps).entries[n]);
    } else {
      var last := |steps| - 1;
      var s := Run(cfg, t0, steps[..last]);
      assert steps[..last][..k] == steps[..k];
      RunFollows(cfg, t0, steps[..last], k, n);
      RunLast(cfg, t0, steps);
      StepFollows(cfg, s, steps[last]);
      FollowsOn(Run(cfg, t0, steps[..k]).entries[n], s.entries, Run(cfg, t0, steps).entries, n);
    }
  }

  /** At step `k` of the run the controller evaluated the policies for request `n`. */
  predicate EvaluatedAt(cfg: Config, t0: int, steps: seq<Step>, k: nat, n: string, result: Action)
    requires k < |steps|
  {
    var s := Run(cfg, t0, steps[..k]);
    && steps[k].StepDispatch? && steps[k].result == result
    && s.ctl.Busy? && s.ctl.pc == Checked && s.ctl.n == n && Evaluates(s.ctl)
  }

  /** The controller's next call stores the conditions of an evaluation with this result. */
  predicate Commits(s: State, n: string, result: Action) {
    && s.ctl.Busy? && s.ctl.n == n && Stored(s, n)
    && s.ctl.pc.Noting? && s.ctl.pc.conds.basis == Some(result)
  }

  lemma StepCommits(cfg: Config, s: State, a: Step, n: string, result: Action)
    requires n in Do(cfg, s, a).entries && result in Do(cfg, s, a).entries[n].committed
    requires !(n in s.entries && result in s.entries[n].committed)
    ensures a == StepAdvance && Commits(s, n, result)
  {
    hide Do, Advance, WriteVerdict, Follows;
    if !Notable(s, a) {
      OtherRemembers(cfg, s, a);
    } else {
      NotableStep(cfg, s, a);
      if a.StepWriteVerdict? {
        VerdictFollows(s, a.id);
      } else if s.ctl.pc.Noting? {
        NotingAdvance(cfg, s, s.ctl);
      } else {
        DispossessOnly(cfg, s, s.ctl);
      }
    }
  }

  lemma NothingYet(cfg: Config, t0: int, n: string)
    ensures n !in Run(cfg, t0, []).entries
  {
  }

  /** Every committed evaluation in a request's history was stored at some step of the run. */
  lemma {:induction false} CommitHappened(cfg: Config, t0: int, steps: seq<Step>, n: string, result: Action) returns (j: nat)
    requires n in Run(cfg, t0, steps).entries && result in Run(cfg, t0, steps).entries[n].committed
    ensures j < |steps| && steps[j] == StepAdvance && Commits(Run(cfg, t0, steps[..j]), n, result)
  {
    hide Run, Do, Commits;
    if steps == [] {
      NothingYet(cfg, t0, n);
      return;
    }
    var last := |steps| - 1;
    var s := Run(cfg, t0, steps[..last]);
    RunLast(cfg, t0, steps);
    if n in s.entries && result in s.entries[n].committed {
      j := CommitHappened(cfg, t0, steps[..last], n, result);
      assert steps[..last][..j] == steps[..j];
    } else {
      StepCommits(cfg, s, steps[last], n, result);
      j := last;
    }
  }

  /** A reconcile comes to storing an evaluation only by making one. */
  lemma StepNoting(cfg: Config, s: State, a: Step)
    requires var b := Do(cfg, s, a).ctl; b.Busy? && b.pc.Noting? && b != s.ctl
    ensures a.StepDispatch? && s.ctl.Busy? && s.ctl.pc == Checked && Evaluates(s.ctl)
    ensures Do(cfg, s, a).ctl.n == s.ctl.n && Do(cfg, s, a).ctl.pc.conds.basis == Some(a.result)
  {
    hide DoSubmit, DoReport, DoReview, DoCollect, DoControl;
    if Submits(a) { SubmitAside(s, a); }
    else if Reports(a) { ReportAside(s, a); }
    else if Reviews(a) { ReviewAside(cfg, s, a); }
    else if Collects(a) { CollectAside(cfg, s, a); }
    else { ControlNoting(cfg, s, a); }
  }

  lemma ControlNoting(cfg: Config, s: State, a: Step)
    requires var b := DoControl(cfg, s, a).ctl; b.Busy? && b.pc.Noting? && b != s.ctl
    ensures a.StepDispatch? && s.ctl.Busy? && s.ctl.pc == Checked && Evaluates(s.ctl)
    ensures DoControl(cfg, s, a).ctl.n == s.ctl.n && DoControl(cfg, s, a).ctl.pc.conds.basis == Some(a.result)
  {
    hide Advance, Decided, Evaluates;
    if a == StepAdvance && s.ctl.Busy? { AdvanceNoting(cfg, s, s.ctl); }
    if a.StepDispatch? && s.ctl.Busy? { DispatchNoting(cfg, s, s.ctl, a.result, a.soak); }
  }

  lemma AdvanceNoting(cfg: Config, s: State, b: Ctl)
    requires s.ctl == b && b.Busy?
    ensures var b' := Advance(cfg, s, b).ctl; b'.Busy? && b'.pc.Noting? ==> b' == b
  {
    hide Acquire, Released, CleanUp, CreateAudit, KeyOf, Holds, LeaseName, CommitMove, CommitNote;
    match b.pc
    case Moving(tr) => CommitNoting(s, b, tr);
    case Noting(cs, acquire) => NoteNoting(s, b, cs, acquire);
    case _ =>
  }

  lemma CommitNoting(s: State, b: Ctl, tr: Transition)
    requires b.Busy?
    ensures var b' := CommitMove(s, b, tr).ctl; b'.Busy? ==> !b'.pc.Noting?
  {
    hide Moved;
  }

  lemma NoteNoting(s: State, b: Ctl, cs: Conds, acquire: bool)
    requires b.Busy?
    ensures var b' := CommitNote(s, b, cs, acquire).ctl; b'.Busy? ==> !b'.pc.Noting?
  {
    hide Noted;
  }

  lemma DispatchNoting(cfg: Config, s: State, b: Ctl, result: Action, soak: bool)
    requires b.Busy?
    ensures var b' := Decided(cfg, s, b, result, soak).ctl;
            b'.Busy? && b'.pc.Noting? && b' != b ==>
              Evaluates(b) && b'.n == b.n && b'.pc.conds.basis == Some(result)
  {
    hide Initialize, ApprovalTimedOut, Holds, LeaseName, LeaseExpired;
  }

  /** From just after step `k` until step `j` one and the same reconcile is at the same point. */
  predicate SameReconcile(cfg: Config, t0: int, steps: seq<Step>, k: nat, j: nat)
    requires j <= |steps|
  {
    forall i :: k < i <= j ==> Run(cfg, t0, steps[..i]).ctl == Run(cfg, t0, steps[..j]).ctl
  }

  lemma {:induction false} NotingHappened(cfg: Config, t0: int, steps: seq<Step>) returns (k: nat)
    requires var b := Run(cfg, t0, steps).ctl; b.Busy? && b.pc.Noting?
    ensures k < |steps| && SameReconcile(cfg, t0, steps, k, |steps|)
    ensures var b := Run(cfg, t0, steps).ctl;
            b.pc.conds.basis.Some? && EvaluatedAt(cfg, t0, steps, k, b.n, b.pc.conds.basis.value)
  {
    hide Run, Do, Evaluates;
    if steps == [] {
      IdleFirst(cfg, t0);
      return;
    }
    var last := |steps| - 1;
    var s := Run(cfg, t0, steps[..last]);
    RunLast(cfg, t0, steps);
    assert steps[..|steps|] == steps;
    if s.ctl == Run(cfg, t0, steps).ctl {
      k := NotingHappened(cfg, t0, steps[..last]);
      assert steps[..last][..k] == steps[..k];
      assert steps[..last][..last] == steps[..last];
      forall i | k < i <= |steps| ensures Run(cfg, t0, steps[..i]).ctl == Run(cfg, t0, steps).ctl {
        if i <= last { assert steps[..last][..i] == steps[..i]; }
      }
    } else {
      StepNoting(cfg, s, steps[last]);
      k := last;
    }
  }

  lemma IdleFirst(cfg: Config, t0: int)
    ensures Run(cfg, t0, []).ctl == Idle
  {
  }

  /** One reconcile evaluated the policies for `n` at step `k` and stored what it found at step `j`. */
  predicate CommittedAt(cfg: Config, t0: int, steps: seq<Step>, k: nat, j: nat, n: string, result: Action)
    requires k < j < |steps|
  {
    && EvaluatedAt(cfg, t0, steps, k, n, result)
    && steps[j] == StepAdvance && Commits(Run(cfg, t0, steps[..j]), n, result)
    && SameReconcile(cfg, t0, steps, k, j)
  }

  /** Every committed evaluation in a request's history was made and stored by one reconcile of the run. */
  lemma EvaluationHappened(cfg: Config, t0: int, steps: seq<Step>, n: string, result: Action)
    requires n in Run(cfg, t0, steps).entries && result in Run(cfg, t0, steps).entries[n].committed
    ensures exists k, j :: 0 <= k < j < |steps| && CommittedAt(cfg, t0, steps, k, j, n, result)
  {
    hide Run, Evaluates;
    var j := CommitHappened(cfg, t0, steps, n, result);
    var k := NotingHappened(cfg, t0, steps[..j]);
    assert steps[..j][..k] == steps[..k] && steps[..j][..j] == steps[..j];
    forall i | k < i <= j ensures Run(cfg, t0, steps[..i]).ctl == Run(cfg, t0, steps[..j]).ctl {
      assert steps[..j][..i] == steps[..i];
    }
    assert CommittedAt(cfg, t0, steps, k, j, n, result);
  }
}

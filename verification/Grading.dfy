/** Every stored verdict is one that one reviewer submitted in one call. */
module Grading {
  import opened Api
  import opened Lifecycle
  import opened Invariant
  import opened Steps
  import opened History
  import opened Guarantees

  /** In this state writing task `id` stores verdict `v` for request `n`, which is awaiting one and still is
      exactly what the handler read. */
  predicate GradesNow(s: State, id: nat, n: string, v: Verdict) {
    && InFlight(s, id) && s.tasks[id].Grading? && s.tasks[id].n == n && s.tasks[id].verdict == v
    && Stored(s, n) && s.entries[n].r == s.tasks[id].read
    && s.entries[n].r.phase == AwaitingVerdict && s.entries[n].r.verdict.None?
  }

  lemma WriteGrades(cfg: Config, s: State, id: nat, n: string)
    requires Inv(cfg, s) && n in WriteVerdict(s, id).entries && n in s.entries
    requires WriteVerdict(s, id).entries[n].verdicts != s.entries[n].verdicts
    ensures exists v :: GradesNow(s, id, n, v) && WriteVerdict(s, id).entries[n].verdicts == s.entries[n].verdicts + [Graded(v, AwaitingVerdict)]
  {
    hide Inv;
    AtTask(cfg, s, id);
    assert GradesNow(s, id, n, s.tasks[id].verdict);
  }

  lemma StepGrades(cfg: Config, s: State, a: Step, n: string, g: Graded)
    requires Inv(cfg, s) && n in Do(cfg, s, a).entries && g in Do(cfg, s, a).entries[n].verdicts
    requires !(n in s.entries && g in s.entries[n].verdicts)
    ensures a.StepWriteVerdict? && g.phase == AwaitingVerdict && GradesNow(s, a.id, n, g.verdict)
  {
    hide Inv, Do, Advance, WriteVerdict, Follows;
    if !Notable(s, a) {
      OtherRemembers(cfg, s, a);
    } else {
      NotableStep(cfg, s, a);
      if a.StepWriteVerdict? {
        VerdictFollows(s, a.id);
        hide GradesNow;
        WriteGrades(cfg, s, a.id, n);
      } else if s.ctl.pc.Noting? {
        NotingAdvance(cfg, s, s.ctl);
      } else {
        DispossessOnly(cfg, s, s.ctl);
      }
    }
  }

  lemma {:induction false} GradingHappened(cfg: Config, t0: int, steps: seq<Step>, n: string, g: Graded)
    requires n in Run(cfg, t0, steps).entries && g in Run(cfg, t0, steps).entries[n].verdicts
    ensures exists k, id :: 0 <= k < |steps| && steps[k] == StepWriteVerdict(id) && GradesNow(Run(cfg, t0, steps[..k]), id, n, g.verdict)
  {
    hide Run, Do, Inv, GradesNow;
    if steps == [] {
      NothingYet(cfg, t0, n);
      return;
    }
    var last := |steps| - 1;
    var s := Run(cfg, t0, steps[..last]);
    RunLast(cfg, t0, steps);
    if n in s.entries && g in s.entries[n].verdicts {
      GradingHappened(cfg, t0, steps[..last], n, g);
      var k, id :| 0 <= k < last && steps[..last][k] == StepWriteVerdict(id) && GradesNow(Run(cfg, t0, steps[..last][..k]), id, n, g.verdict);
      assert steps[..last][..k] == steps[..k] && steps[k] == StepWriteVerdict(id);
    } else {
      RunKeeps(cfg, t0, steps[..last]);
      StepGrades(cfg, s, steps[last], n, g);
      assert steps[last] == StepWriteVerdict(steps[last].id);
    }
  }

  // ---------- where the verdict comes from ----------

  /** No handler of a verdict or a human decision has started. */
  predicate NoNewReview(s: State, s': State) {
    forall id :: id in s'.tasks && (s'.tasks[id].Grading? || s'.tasks[id].Deciding?) ==>
      id in s.tasks && s.tasks[id] == s'.tasks[id]
  }

  lemma SubmitGrades(s: State, a: Step)
    requires Submits(a)
    ensures NoNewReview(s, DoSubmit(s, a))
  {
    hide AdmitHttp, AdmitMcp, NewEntry, GoodName;
  }

  lemma ReportGrades(s: State, a: Step)
    requires Reports(a)
    ensures NoNewReview(s, DoReport(s, a))
  {
    hide AbandonConds, Signaled;
  }

  lemma ReviewGrades(cfg: Config, s: State, a: Step)
    requires Reviews(a) && !a.StepStartVerdict? && !a.StepStartDecision?
    ensures NoNewReview(s, DoReview(cfg, s, a))
  {
    hide HumanDecided, GradedEntry, Touched;
  }

  lemma CollectGrades(cfg: Config, s: State, a: Step)
    requires Collects(a)
    ensures NoNewReview(s, DoCollect(cfg, s, a))
  {
    hide DeletedEntry, Collectable;
  }

  lemma AdvanceGrades(cfg: Config, s: State, b: Ctl)
    requires b.Busy?
    ensures Advance(cfg, s, b).tasks == s.tasks
  {
    hide Released, CommitMove, CleanUp, CreateAudit, CommitNote, Acquire, Renew, Since, KeyOf, AfterRecord, Go;
  }

  lemma ControlGrades(cfg: Config, s: State, a: Step)
    ensures NoNewReview(s, DoControl(cfg, s, a))
  {
    hide Advance, Dispatch, CheckResource, AfterRecord, Go;
    if s.ctl.Busy? { AdvanceGrades(cfg, s, s.ctl); }
  }

  /** What starts the handler of a verdict or a human decision. */
  predicate Starts(s: State, a: Step, id: nat, task: Task) {
    || (a.StepStartVerdict? && a.id == id && ValidVerdict(a.verdict) && Stored(s, a.n)
        && task == Grading(a.n, a.verdict.(at := s.now), s.entries[a.n].r))
    || (a.StepStartDecision? && a.id == id && Stored(s, a.n) && s.entries[a.n].r.spec.agent != a.sub
        && task == Deciding(a.n, Decision(a.approve, a.sub)))
  }

  lemma StartReview(cfg: Config, s: State, a: Step, id: nat)
    requires id in Do(cfg, s, a).tasks && (Do(cfg, s, a).tasks[id].Grading? || Do(cfg, s, a).tasks[id].Deciding?)
    requires !(id in s.tasks && s.tasks[id] == Do(cfg, s, a).tasks[id])
    ensures Starts(s, a, id, Do(cfg, s, a).tasks[id])
  {
    hide DoSubmit, DoReport, DoReview, DoCollect, DoControl, Starts;
    if Submits(a) { SubmitGrades(s, a); }
    else if Reports(a) { ReportGrades(s, a); }
    else if Reviews(a) {
      if a.StepStartVerdict? || a.StepStartDecision? { ReviewStarts(cfg, s, a, id); } else { ReviewGrades(cfg, s, a); }
    }
    else if Collects(a) { CollectGrades(cfg, s, a); }
    else { ControlGrades(cfg, s, a); }
  }

  lemma ReviewStarts(cfg: Config, s: State, a: Step, id: nat)
    requires (a.StepStartVerdict? || a.StepStartDecision?) && id in DoReview(cfg, s, a).tasks
    requires !(id in s.tasks && s.tasks[id] == DoReview(cfg, s, a).tasks[id])
    ensures Starts(s, a, id, DoReview(cfg, s, a).tasks[id])
  {
    hide ValidVerdict;
  }

  /** Verdict `v` for request `n` was submitted, as a valid whole, by call `id` at step `j`. */
  predicate SubmittedAt(cfg: Config, t0: int, steps: seq<Step>, j: nat, id: nat, n: string, v: Verdict)
    requires j < |steps|
  {
    && steps[j].StepStartVerdict? && steps[j].id == id && steps[j].n == n && ValidVerdict(steps[j].verdict)
    && v == steps[j].verdict.(at := Run(cfg, t0, steps[..j]).now)
  }

  lemma {:induction false} TaskStarted(cfg: Config, t0: int, steps: seq<Step>, id: nat)
    requires id in Run(cfg, t0, steps).tasks && Run(cfg, t0, steps).tasks[id].Grading?
    ensures var task := Run(cfg, t0, steps).tasks[id];
            exists j :: 0 <= j < |steps| && SubmittedAt(cfg, t0, steps, j, id, task.n, task.verdict)
  {
    hide Run, Do, ValidVerdict;
    if steps == [] {
      NoTasksYet(cfg, t0, id);
      return;
    }
    var last, task := |steps| - 1, Run(cfg, t0, steps).tasks[id];
    var s := Run(cfg, t0, steps[..last]);
    RunLast(cfg, t0, steps);
    if id in s.tasks && s.tasks[id] == task {
      TaskStarted(cfg, t0, steps[..last], id);
      var j :| 0 <= j < last && SubmittedAt(cfg, t0, steps[..last], j, id, task.n, task.verdict);
      assert steps[..last][..j] == steps[..j];
      assert SubmittedAt(cfg, t0, steps, j, id, task.n, task.verdict);
    } else {
      StartReview(cfg, s, steps[last], id);
      assert SubmittedAt(cfg, t0, steps, last, id, task.n, task.verdict);
    }
  }

  lemma NoTasksYet(cfg: Config, t0: int, id: nat)
    ensures id !in Run(cfg, t0, []).tasks
  {
  }

  /** The stored verdict: all of it is what one reviewer submitted in one call, and it was stored while the
      request was awaiting a verdict, ungraded and unchanged since that call read it. */
  lemma VerdictFromOneReviewer(cfg: Config, t0: int, steps: seq<Step>, n: string)
    requires n in Run(cfg, t0, steps).entries && Run(cfg, t0, steps).entries[n].r.verdict.Some?
    ensures var v := Run(cfg, t0, steps).entries[n].r.verdict.value;
            exists j, k, id ::
              && 0 <= j < k < |steps| && steps[k] == StepWriteVerdict(id) && SubmittedAt(cfg, t0, steps, j, id, n, v)
              && GradesNow(Run(cfg, t0, steps[..k]), id, n, v)
  {
    hide Run, SubmittedAt;
    VerdictWrittenOnce(cfg, t0, steps, n);
    var v := Run(cfg, t0, steps).entries[n].r.verdict.value;
    GradingHappened(cfg, t0, steps, n, Graded(v, AwaitingVerdict));
    var k, id :| 0 <= k < |steps| && steps[k] == StepWriteVerdict(id) && GradesNow(Run(cfg, t0, steps[..k]), id, n, v);
    TaskStarted(cfg, t0, steps[..k], id);
    var j :| 0 <= j < k && SubmittedAt(cfg, t0, steps[..k], j, id, n, v);
    SameSubmission(cfg, t0, steps, k, j, id, n, v);
  }

  lemma SameSubmission(cfg: Config, t0: int, steps: seq<Step>, k: nat, j: nat, id: nat, n: string, v: Verdict)
    requires j < k <= |steps| && SubmittedAt(cfg, t0, steps[..k], j, id, n, v)
    ensures SubmittedAt(cfg, t0, steps, j, id, n, v)
  {
    hide Run, ValidVerdict;
    assert steps[..k][..j] == steps[..j];
  }
}

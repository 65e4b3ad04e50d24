/** What each gateway handler and collector pass does when nobody interferes, call by call, and when the one
    write that is conditional goes through although others do. */
module Handlers {
  import opened Api
  import RollingAccuracy
  import opened Lifecycle
  import opened Invariant
  import opened Steps

  // ---------- which step is which ----------

  lemma ReviewIs(cfg: Config, s: State, a: Step)
    requires Reviews(a)
    ensures Do(cfg, s, a) == DoReview(cfg, s, a)
  {
    hide DoReview, DoSubmit, DoReport, DoCollect, DoControl;
  }

  lemma ReportIs(cfg: Config, s: State, a: Step)
    requires Reports(a)
    ensures Do(cfg, s, a) == DoReport(s, a)
  {
    hide DoReview, DoSubmit, DoReport, DoCollect, DoControl;
  }

  lemma CollectIs(cfg: Config, s: State, a: Step)
    requires Collects(a)
    ensures Do(cfg, s, a) == DoCollect(cfg, s, a)
  {
    hide DoReview, DoSubmit, DoReport, DoCollect, DoControl;
  }

  /** A condition that holds now, since it began to. */
  function Now(c: Cond, t: int): Cond {
    if c.Cond? && c.status then c else Cond(true, t)
  }

  /** The request with one more write on it. */
  function Written(e: Entry, r: Request): Entry {
    e.(r := r.(version := e.r.version + 1))
  }

  // ---------- human decisions ----------

  /** A decision is stored exactly if the request is there and Pending and the subject is not its own agent;
      an approval so accepted also mints a token where tokens are configured. Nothing else changes. */
  lemma DecisionCall(cfg: Config, s: State, id: nat, n: string, sub: string, approve: bool)
    requires id !in s.tasks
    ensures var s' := Do(cfg, Do(cfg, s, StepStartDecision(id, n, sub, approve)), StepWriteDecision(id));
            var accepted := n in s.entries && s.entries[n].live && s.entries[n].r.phase == Pending && s.entries[n].r.spec.agent != sub;
            && s'.entries == (if accepted
                              then s.entries[n := Written(s.entries[n], s.entries[n].r.(human := Some(Decision(approve, sub))))]
                              else s.entries)
            && s'.tokens == (if accepted && approve && cfg.jwtConfigured then s.tokens + {n} else s.tokens)
            && s'.leases == s.leases && s'.audits == s.audits && s'.ctl == s.ctl && s'.now == s.now
  {
    hide Do;
    var a, b := StepStartDecision(id, n, sub, approve), StepWriteDecision(id);
    ReviewIs(cfg, s, a);
    ReviewIs(cfg, Do(cfg, s, a), b);
  }

  /** Awaiting approval mints a token exactly for an Approved request, where tokens are configured. */
  lemma AwaitCall(cfg: Config, s: State, n: string)
    ensures Do(cfg, s, AwaitApproval(n)) ==
            if n in s.entries && s.entries[n].live && s.entries[n].r.phase == Approved && cfg.jwtConfigured
            then s.(tokens := s.tokens + {n}) else s
  {
    hide Do;
    ReviewIs(cfg, s, AwaitApproval(n));
  }

  // ---------- verdicts ----------

  /** The reason codes a verdict may carry. */
  const CODES := ["wrong_diagnosis", "bad_timing", "scope_too_broad", "precautionary", "policy_block"]

  lemma ValidExactly(v: Verdict)
    ensures ValidVerdict(v) <==> v.reasonCode in CODES || (v.reasonCode == "" && v.grade == Correct)
  {
  }

  /** Of the verdicts that may be stored, accuracy counts those without a reason and the wrong diagnoses. */
  lemma ValidCounts(v: Verdict)
    requires v.reasonCode in CODES || (v.reasonCode == "" && v.grade == Correct)
    ensures !RollingAccuracy.Skipped(v.reasonCode) <==> v.reasonCode in ["", "wrong_diagnosis"]
  {
  }

  /** A verdict is stored exactly if the request is there, awaiting a verdict and ungraded, and the verdict
      gives one of the reasons, or none and the grade is correct. It is stamped with the time. */
  lemma VerdictCall(cfg: Config, s: State, id: nat, n: string, v: Verdict)
    requires id !in s.tasks
    ensures var s' := Do(cfg, Do(cfg, s, StepStartVerdict(id, n, v)), StepWriteVerdict(id));
            var accepted := && n in s.entries && s.entries[n].live && s.entries[n].r.phase == AwaitingVerdict
                            && s.entries[n].r.verdict.None?
                            && (v.reasonCode in CODES || (v.reasonCode == "" && v.grade == Correct));
            s'.entries == if accepted
                          then s.entries[n := Written(s.entries[n], s.entries[n].r.(verdict := Some(v.(at := s.now))))
                                                .(verdicts := s.entries[n].verdicts + [Graded(v.(at := s.now), AwaitingVerdict)])]
                          else s.entries
  {
    hide Do, ValidVerdict;
    ValidExactly(v);
    var a, b := StepStartVerdict(id, n, v), StepWriteVerdict(id);
    ReviewIs(cfg, s, a);
    ReviewIs(cfg, Do(cfg, s, a), b);
  }

  /** With others at work in between: the write goes through exactly if the request is there and is in every
      respect what the handler read. */
  lemma VerdictLands(cfg: Config, s: State, id: nat)
    requires Inv(cfg, s) && InFlight(s, id) && s.tasks[id].Grading?
    ensures var n, s' := s.tasks[id].n, Do(cfg, s, StepWriteVerdict(id));
            && n in s.entries && n in s'.entries
            && (if s.entries[n].live && s.entries[n].r == s.tasks[id].read
                then && s'.entries[n].r.verdict == Some(s.tasks[id].verdict)
                     && s'.entries[n].verdicts == s.entries[n].verdicts + [Graded(s.tasks[id].verdict, AwaitingVerdict)]
                else s'.entries == s.entries)
  {
    hide Do, Inv;
    AtTask(cfg, s, id);
    ReviewIs(cfg, s, StepWriteVerdict(id));
  }

  // ---------- reports ----------

  /** Begin, read and write one report. */
  function ReportOnce(cfg: Config, s: State, start: Step, id: nat): State {
    Do(cfg, Do(cfg, Do(cfg, s, start), StepReadConds(id)), StepWriteConds(id))
  }

  lemma OneReport(cfg: Config, s: State, id: nat, n: string, todo: seq<Signal>)
    requires InFlight(s, id) && s.tasks[id] == Conditioning(n, todo, None) && todo != [] && Stored(s, n)
    ensures var s' := Do(cfg, Do(cfg, s, StepReadConds(id)), StepWriteConds(id));
            && s' == s.(entries := s'.entries, tasks := s'.tasks) && s'.tasks == s.tasks[id := Conditioning(n, todo[1..], None)]
            && s'.entries == s.entries[n := Written(s.entries[n], s.entries[n].r.(conds := WithSignal(s.entries[n].r.conds, todo[0], s.now)))]
  {
    hide Do;
    ReportIs(cfg, s, StepReadConds(id));
    ReportIs(cfg, Do(cfg, s, StepReadConds(id)), StepWriteConds(id));
    assert s.tasks[id := Conditioning(n, todo, Some(s.entries[n].r.conds))][id := Conditioning(n, todo[1..], None)]
        == s.tasks[id := Conditioning(n, todo[1..], None)];
  }

  /** The start of an execution is on the list exactly if the request is there and Approved; then that
      condition holds and everything else of the request is as it was. */
  lemma ExecutingCall(cfg: Config, s: State, id: nat, n: string)
    requires id !in s.tasks
    ensures var s' := ReportOnce(cfg, s, StartExecuting(id, n), id);
            s'.entries == if n in s.entries && s.entries[n].live && s.entries[n].r.phase == Approved
                          then s.entries[n := Written(s.entries[n], s.entries[n].r.(conds :=
                                 s.entries[n].r.conds.(executing := Now(s.entries[n].r.conds.executing, s.now))))]
                          else s.entries
  {
    hide Do;
    ReportIs(cfg, s, StartExecuting(id, n));
    var s1 := Do(cfg, s, StartExecuting(id, n));
    if PhaseOf(s, n) == Some(Approved) { OneReport(cfg, s1, id, n, [SigExecuting]); } else { NoTask(cfg, s1, id); }
  }

  /** A completion is on the list exactly if the request is there and Executing. */
  lemma CompletedCall(cfg: Config, s: State, id: nat, n: string)
    requires id !in s.tasks
    ensures var s' := ReportOnce(cfg, s, StartCompleted(id, n), id);
            s'.entries == if n in s.entries && s.entries[n].live && s.entries[n].r.phase == Executing
                          then s.entries[n := Written(s.entries[n], s.entries[n].r.(conds :=
                                 s.entries[n].r.conds.(completed := Now(s.entries[n].r.conds.completed, s.now))))]
                          else s.entries
  {
    hide Do;
    ReportIs(cfg, s, StartCompleted(id, n));
    var s1 := Do(cfg, s, StartCompleted(id, n));
    if PhaseOf(s, n) == Some(Executing) { OneReport(cfg, s1, id, n, [SigCompleted]); } else { NoTask(cfg, s1, id); }
  }

  lemma NoTask(cfg: Config, s: State, id: nat)
    requires id !in s.tasks
    ensures Do(cfg, Do(cfg, s, StepReadConds(id)), StepWriteConds(id)) == s
  {
    hide Do;
    ReportIs(cfg, s, StepReadConds(id));
    ReportIs(cfg, s, StepWriteConds(id));
  }

  /** Abandoning a request that is Executing, Pending or awaiting a verdict puts its failure on the list;
      in other phases, Approved aside, it does nothing. */
  lemma AbandonCall(cfg: Config, s: State, id: nat, n: string)
    requires id !in s.tasks && !(n in s.entries && s.entries[n].live && s.entries[n].r.phase == Approved)
    ensures var s' := ReportOnce(cfg, s, StartAbandon(id, n), id);
            s'.entries == if n in s.entries && s.entries[n].live && s.entries[n].r.phase in {Executing, Pending, AwaitingVerdict}
                          then s.entries[n := Written(s.entries[n], s.entries[n].r.(conds :=
                                 s.entries[n].r.conds.(failed := Now(s.entries[n].r.conds.failed, s.now))))]
                          else s.entries
  {
    hide Do;
    ReportIs(cfg, s, StartAbandon(id, n));
    var s1 := Do(cfg, s, StartAbandon(id, n));
    if n in s.entries && s.entries[n].live && s.entries[n].r.phase in {Executing, Pending, AwaitingVerdict} {
      OneReport(cfg, s1, id, n, [SigFailed]);
    } else if n in s.entries && s.entries[n].live {
      NothingToReport(cfg, s1, id, n);
    } else {
      NoTask(cfg, s1, id);
    }
  }

  lemma NothingToReport(cfg: Config, s: State, id: nat, n: string)
    requires InFlight(s, id) && s.tasks[id] == Conditioning(n, [], None)
    ensures Do(cfg, Do(cfg, s, StepReadConds(id)), StepWriteConds(id)).entries == s.entries
  {
    hide Do;
    ReportIs(cfg, s, StepReadConds(id));
    ReportIs(cfg, Do(cfg, s, StepReadConds(id)), StepWriteConds(id));
  }

  /** Abandoning an Approved request puts its start and then its failure on the list. */
  lemma AbandonApprovedCall(cfg: Config, s: State, id: nat, n: string)
    requires id !in s.tasks && n in s.entries && s.entries[n].live && s.entries[n].r.phase == Approved
    ensures var s1 := ReportOnce(cfg, s, StartAbandon(id, n), id);
            var s2, cs := Do(cfg, Do(cfg, s1, StepReadConds(id)), StepWriteConds(id)), s.entries[n].r.conds;
            && n in s2.entries && s2.entries[n].r.phase == Approved
            && s2.entries[n].r.conds == cs.(executing := Now(cs.executing, s.now), failed := Now(cs.failed, s.now))
  {
    TwoReports(cfg, s, StartAbandon(id, n), id, n, SigFailed);
  }

  /** Completion through a token puts start and completion on the list, in any phase; without a token nothing. */
  lemma McpCompleteCall(cfg: Config, s: State, id: nat, n: string)
    requires id !in s.tasks && n in s.entries && s.entries[n].live
    ensures var s1 := ReportOnce(cfg, s, StartMcpComplete(id, n), id);
            var s2, cs := Do(cfg, Do(cfg, s1, StepReadConds(id)), StepWriteConds(id)), s.entries[n].r.conds;
            && n in s2.entries && s2.entries[n].r.phase == s.entries[n].r.phase
            && s2.entries[n].r.conds == if n in s.tokens
                                        then cs.(executing := Now(cs.executing, s.now), completed := Now(cs.completed, s.now))
                                        else cs
  {
    hide Do;
    ReportIs(cfg, s, StartMcpComplete(id, n));
    if n in s.tokens {
      TwoReports(cfg, s, StartMcpComplete(id, n), id, n, SigCompleted);
    } else {
      NoTask(cfg, s, id);
    }
  }

  lemma TwoReports(cfg: Config, s: State, start: Step, id: nat, n: string, second: Signal)
    requires id !in s.tasks && Stored(s, n) && Reports(start)
    requires DoReport(s, start) == s.(tasks := s.tasks[id := Conditioning(n, [SigExecuting, second], None)])
    ensures var s1 := ReportOnce(cfg, s, start, id);
            var s2, cs := Do(cfg, Do(cfg, s1, StepReadConds(id)), StepWriteConds(id)), s.entries[n].r.conds;
            && n in s2.entries && s2.entries[n].r.phase == s.entries[n].r.phase
            && s2.entries[n].r.conds == WithSignal(WithSignal(cs, SigExecuting, s.now), second, s.now)
  {
    hide Do, WithSignal;
    ReportIs(cfg, s, start);
    OneReport(cfg, Do(cfg, s, start), id, n, [SigExecuting, second]);
    var s1 := ReportOnce(cfg, s, start, id);
    assert [SigExecuting, second][1..] == [second];
    OneReport(cfg, s1, id, n, [second]);
  }

  // ---------- the collector ----------

  /** A collector pass deletes the request exactly if it is at an end, at least the hard TTL old, and the
      collector has a TTL and is no dry run. */
  lemma CollectCall(cfg: Config, s: State, id: nat, n: string)
    requires id !in s.tasks && n in s.entries && s.entries[n].live
    ensures var s' := Do(cfg, Do(cfg, Do(cfg, s, StartCollect(id, n)), StepJudge(id)), StepCollect(id));
            var e := s.entries[n];
            && s'.entries.Keys == s.entries.Keys
            && (!s'.entries[n].live <==> && e.r.phase in {Completed, Failed, Denied, Expired}
                                         && s.now >= e.r.spec.created + cfg.hardTTL && cfg.hardTTL != 0 && !cfg.dryRun)
            && forall m :: m in s.entries && m != n ==> s'.entries[m] == s.entries[m]
  {
    hide Do;
    var a, b, c := StartCollect(id, n), StepJudge(id), StepCollect(id);
    CollectIs(cfg, s, a);
    CollectIs(cfg, Do(cfg, s, a), b);
    CollectIs(cfg, Do(cfg, Do(cfg, s, a), b), c);
  }

  /** Deduplication deletes exactly a request at its end. */
  lemma DedupCall(cfg: Config, s: State, n: string)
    requires n in s.entries && s.entries[n].live
    ensures var s' := Do(cfg, s, DedupDelete(n));
            n in s'.entries && (!s'.entries[n].live <==> s.entries[n].r.phase in {Completed, Failed, Denied, Expired})
  {
    hide Do;
    CollectIs(cfg, s, DedupDelete(n));
  }
}

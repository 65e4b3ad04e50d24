/** Every change the steps make to one request keeps its invariant and lets every snapshot of
    it survive. */
module Entries {
  import opened Api
  import opened TrustGate
  import opened Lifecycle
  import opened Phases
  import opened Invariant

  lemma ModeAside(g: GateInput, level: string)
    ensures var g' := g.(observe := false);
            && TooLow(g') == TooLow(g) && CountsAs(g', level) == CountsAs(g, level)
            && Grants(g') == Grants(g) && Waives(g') == Waives(g)
  {
    forall l ensures CountsAs(g.(observe := false), l) == CountsAs(g, l) {
    }
    hide CountsAs, StandsBelow, OnLadder;
  }

  /** HTTP admission turns away exactly an agent too low for a resource it may otherwise use, and stores of
      every other request exactly what the gate found. */
  lemma AdmittedSound(b: Body, gate: GateInput, permitted: bool, now: int)
    ensures AdmitHttp(b, gate, permitted, now).None? <==> b.ref.Some? && permitted && TooLow(gate)
    ensures var spec := AdmitHttp(b, gate, permitted, now);
            spec.Some? ==>
              && spec.value.agent == b.agent && spec.value.uri == b.uri && spec.value.ref == b.ref
              && spec.value.created == now && !spec.value.observe
              && OriginSound(NewEntry(spec.value, Http(gate, permitted)))
  {
    ModeAside(gate, "");
    GateExactly(gate.(observe := false));
    RefusedUngranted(gate);
    hide TooLow, Grants, Waives, CountsAs, Gate;
  }

  /** Without requirements the gate neither turns away nor grants nor waives. */
  lemma RefusedUngranted(g: GateInput)
    ensures g.requirements.None? ==> !TooLow(g) && !Grants(g) && !Waives(g)
    ensures Waives(g) ==> Grants(g)
  {
  }

  lemma McpAdmittedSound(b: Body, gate: Option<GateInput>, now: int)
    ensures var spec := AdmitMcp(b, gate, now);
            && spec.agent == b.agent && spec.uri == b.uri && spec.ref == b.ref && spec.created == now && !spec.observe
            && OriginSound(NewEntry(spec, Mcp(gate)))
  {
    if gate.Some? {
      ModeAside(gate.value, "");
      GateExactly(gate.value.(observe := false));
      RefusedUngranted(gate.value);
    }
    hide TooLow, Grants, Waives, CountsAs, Gate;
  }

  /** So what the gate refuses is barred. */
  lemma RefusedBarred(e: Entry)
    requires OriginSound(e) && e.origin.Http? && e.r.spec.ref.Some? && GateRefuses(e.origin.gate)
    ensures Barred(e.r.spec)
  {
  }

  lemma NewSound(cfg: Config, spec: Spec, origin: Origin)
    requires OriginSound(NewEntry(spec, origin))
    ensures EntryInv(cfg, NewEntry(spec, origin))
  {
  }

  lemma MoveSound(cfg: Config, e: Entry, tr: Transition, read: Approval, t: int)
    requires EntryInv(cfg, e) && e.live && Planned(tr) && e.r.phase == tr.from
    requires tr.conds.Some? ==> NextListOk(e, tr.to, tr.conds.value, t) && Sourced(e, tr.to, tr.conds.value)
    requires tr.to == Approved ==>
               && tr.conds.Some? && tr.conds.value.approved.IsTrue()
               && Grounded(e, read.basis, SaysApproved(read.human)) && ReviewedByOther(e.r.spec, read.human)
               && SeenAdmitted(e.r.spec, read.seen)
    requires Barred(e.r.spec) ==> BarredPhase(tr.to) && (tr.to == Completed ==> e.r.verdict.Some?)
    ensures EntryInv(cfg, Moved(e, tr, read)) && Evolves(e, Moved(e, tr, read))
    ensures EndsWith(Moved(e, tr, read).path, tr) && (Timely(e, t) ==> Timely(Moved(e, tr, read), t))
  {
    PathMoved(e, tr, read);
    hide PathInv;
    assert OriginSound(Moved(e, tr, read));
    hide OriginSound;
  }

  lemma NoteSound(cfg: Config, e: Entry, cs: Conds, t: int)
    requires EntryInv(cfg, e) && NextListOk(e, e.r.phase, cs, t)
    requires Settles(e.r.spec, cs.basis, cs.requiresApproval.IsTrue())
    ensures EntryInv(cfg, Noted(e, cs)) && Evolves(e, Noted(e, cs)) && (Timely(e, t) ==> Timely(Noted(e, cs), t))
  {
  }

  lemma SignalSound(cfg: Config, e: Entry, snap: Conds, sig: Signal, t: int)
    requires EntryInv(cfg, e) && ListOk(e, snap) && (Barred(e.r.spec) ==> sig == SigFailed)
    ensures EntryInv(cfg, Signaled(e, snap, sig, t)) && Evolves(e, Signaled(e, snap, sig, t))
  {
  }

  lemma DecisionSound(cfg: Config, e: Entry, d: Decision)
    requires EntryInv(cfg, e) && ReviewedByOther(e.r.spec, Some(d))
    ensures EntryInv(cfg, HumanDecided(e, d)) && Evolves(e, HumanDecided(e, d))
  {
  }

  lemma GradeSound(cfg: Config, e: Entry, v: Verdict)
    requires EntryInv(cfg, e) && e.r.phase == AwaitingVerdict && e.r.verdict.None?
    ensures EntryInv(cfg, GradedEntry(e, v)) && Evolves(e, GradedEntry(e, v))
  {
  }

  lemma TouchSound(cfg: Config, e: Entry)
    requires EntryInv(cfg, e)
    ensures EntryInv(cfg, Touched(e)) && Evolves(e, Touched(e))
  {
  }

  lemma DeleteSound(cfg: Config, e: Entry, now: int, collected: bool)
    requires EntryInv(cfg, e) && e.live && Terminal(e.r.phase)
    requires collected ==> cfg.hardTTL != 0 && !cfg.dryRun && now - e.r.spec.created >= cfg.hardTTL
    ensures EntryInv(cfg, DeletedEntry(e, now, collected)) && Evolves(e, DeletedEntry(e, now, collected))
  {
  }

  lemma SweepSound(cfg: Config, e: Entry)
    requires EntryInv(cfg, e) && Terminal(e.r.phase)
    ensures EntryInv(cfg, e.(swept := true)) && Evolves(e, e.(swept := true))
  {
  }

  lemma RecordSound(cfg: Config, e: Entry, k: AuditKey)
    requires EntryInv(cfg, e)
    ensures EntryInv(cfg, Recorded(e, k)) && Evolves(e, Recorded(e, k))
  {
  }

  lemma LossKept(cfg: Config, e: Entry, why: Loss)
    requires EntryInv(cfg, e) && Justified(cfg, why)
    ensures EntryInv(cfg, e.(loss := Some(why))) && Evolves(e, e.(loss := Some(why)))
  {
  }
}

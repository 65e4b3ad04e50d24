/** The phase graph: every request walks a strictly descending path, settled phases absorb,
    and the controller's in-memory phase always agrees with the stored one. */
module Phases {
  import opened Api
  import opened Lifecycle

  /** Height in the phase graph; every phase change lowers it. */
  function Height(p: Phase): nat {
    match p
    case Unset => 4
    case Pending => 3
    case Approved => 2
    case Executing => 1
    case AwaitingVerdict => 1
    case _ => 0
  }

  /** The phase changes the controller may make. */
  predicate Edge(from: Phase, to: Phase) {
    && !Settled(from)
    && (|| to == Denied || to == Completed || to == Failed
        || (from == Unset && (to == Observed || to == Pending || to == AwaitingVerdict))
        || (from == Pending && to == Approved)
        || (from == Approved && to == Executing)
        || (from == AwaitingVerdict && to == Expired))
  }

  ghost predicate PathOk(path: seq<Phase>) {
    && path != [] && path[0] == Unset
    && forall i, j :: 0 <= i < j < |path| && j == i + 1 ==> Edge(path[i], path[j])
  }

  function Last(path: seq<Phase>): Phase {
    if path == [] then Unset else path[|path| - 1]
  }

  /** The transition a path ends with. */
  predicate EndsWith(path: seq<Phase>, tr: Transition) {
    |path| >= 2 && path[|path| - 2] == tr.from && path[|path| - 1] == tr.to
  }

  /** A planned transition: an edge, and a lease given up only on the way to a settled phase. */
  predicate Planned(tr: Transition) {
    && Edge(tr.from, tr.to)
    && (tr.cleanup != NoCleanup ==> Settled(tr.to))
    && (tr.cleanup == DropLease ==> tr.from == Executing && tr.to == Failed)
    && (tr.to == Approved ==> tr.conds.Some?)
  }

  /** A request agrees with its history, which is a walk in the phase graph, and it is
      only ever deleted once settled. */
  ghost predicate PathInv(e: Entry) {
    PathOk(e.path) && e.r.phase == Last(e.path) && (!e.live ==> Settled(e.r.phase))
  }

  lemma PathMoved(e: Entry, tr: Transition, read: Approval)
    requires PathInv(e) && e.live && Edge(tr.from, tr.to) && e.r.phase == tr.from
    ensures PathInv(Moved(e, tr, read)) && EndsWith(Moved(e, tr, read).path, tr)
  {
    var path := e.path + [tr.to];
    forall i, j | 0 <= i < j < |path| && j == i + 1 ensures Edge(path[i], path[j]) {
      if j < |e.path| { assert path[i] == e.path[i] && path[j] == e.path[j]; }
    }
  }

  /** Heights strictly descend along a path. */
  lemma {:induction false} PathDescends(path: seq<Phase>, i: nat, j: nat)
    requires PathOk(path) && i < j < |path|
    ensures Height(path[i]) >= Height(path[j]) + (j - i)
    decreases j - i
  {
    assert Edge(path[j - 1], path[j]);
    if i < j - 1 { PathDescends(path, i, j - 1); }
  }

  /** At most four phase changes from creation, never the same phase twice, and nothing
      after a settled phase. */
  lemma PathBounded(path: seq<Phase>)
    requires PathOk(path)
    ensures |path| <= 5
    ensures forall i, j :: 0 <= i < j < |path| ==> path[i] != path[j]
    ensures forall i :: 0 <= i < |path| && Settled(path[i]) ==> i == |path| - 1
  {
    if |path| > 1 { PathDescends(path, 0, |path| - 1); }
    forall i, j | 0 <= i < j < |path| ensures path[i] != path[j] && !Settled(path[i]) {
      PathDescends(path, i, j);
    }
  }

  /** Phase by phase, where a walk may come from: the first phase is chosen on creation, approval follows
      Pending, execution follows approval, expiry follows waiting for a verdict; only the phases that are
      an end may come elsewhere. */
  predicate ComesFrom(from: Phase, to: Phase) {
    match to
    case Unset => false
    case Pending => from == Unset
    case Observed => from == Unset
    case AwaitingVerdict => from == Unset
    case Approved => from == Pending
    case Executing => from == Approved
    case Expired => from == AwaitingVerdict
    case _ => from in {Unset, Pending, Approved, Executing, AwaitingVerdict}
  }

  lemma EdgeMeans(from: Phase, to: Phase)
    ensures Edge(from, to) <==> ComesFrom(from, to)
  {
  }
}

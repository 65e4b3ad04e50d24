/** Audit exactness: every phase change of a request is recorded exactly once when nothing crashes
    and never more than once when something does. */
module AuditTrail {
  import opened Api
  import opened Lifecycle
  import opened Phases

  // ---------- record names ----------

  /** The 53-character digests of the inputs in question do not collide. Only the finitely many
      inputs about the given request names count: over all strings this would be unsatisfiable. */
  ghost predicate CollisionFree(cfg: Config, names: set<string>) {
    forall k: AuditKey, k': AuditKey :: k.request in names && k'.request in names && AuditName(cfg, k) == AuditName(cfg, k') ==>
      AuditInput(k) == AuditInput(k')
  }

  lemma EventTextInjective(a: Event, b: Event)
    requires EventText(a) == EventText(b)
    ensures a == b
  {
    assert |EventText(a)| == |EventText(b)|;
    assert EventText(a)[|EventText(a)| - 3] == EventText(b)[|EventText(b)| - 3];
    assert EventText(a)[|EventText(a)| - 4] == EventText(b)[|EventText(b)| - 4];
    assert EventText(a)[0] == EventText(b)[0];
  }

  lemma PhaseTextInjective(a: Phase, b: Phase)
    requires PhaseText(a) == PhaseText(b)
    ensures a == b
  {
    assert |PhaseText(a)| == |PhaseText(b)|;
    assert a != Unset ==> PhaseText(a)[0] == PhaseText(b)[0];
  }

  /** Splitting at the first separator is unambiguous. */
  lemma SplitFirst(a: string, x: string, b: string, y: string)
    requires '|' !in a && '|' !in b && a + "|" + x == b + "|" + y
    ensures a == b && x == y
  {
    var s := a + "|" + x;
    assert s[|a|] == '|' && s[|b|] == '|';
    assert forall i :: 0 <= i < |a| ==> s[i] == a[i];
    assert forall i :: 0 <= i < |b| ==> s[i] == b[i];
    assert a == s[..|a|] && b == s[..|b|] && x == s[|a| + 1..] && y == s[|b| + 1..];
  }

  /** The input of the digest determines the key it is about. */
  lemma AuditInputInjective(k: AuditKey, k': AuditKey)
    requires GoodName(k.request) && GoodName(k'.request) && AuditInput(k) == AuditInput(k')
    ensures k == k'
  {
    hide EventText, PhaseText;
    var p, p' := PhaseText(k.from) + "|" + PhaseText(k.to), PhaseText(k'.from) + "|" + PhaseText(k'.to);
    var r, r' := EventText(k.event) + "|" + p, EventText(k'.event) + "|" + p';
    assert AuditInput(k) == k.request + "|" + r && AuditInput(k') == k'.request + "|" + r';
    SplitFirst(k.request, r, k'.request, r');
    SplitFirst(EventText(k.event), p, EventText(k'.event), p');
    SplitFirst(PhaseText(k.from), PhaseText(k.to), PhaseText(k'.from), PhaseText(k'.to));
    EventTextInjective(k.event, k'.event);
    PhaseTextInjective(k.from, k'.from);
    PhaseTextInjective(k.to, k'.to);
  }

  // ---------- the trail of one request ----------

  /** Events filed under the phase change itself. */
  predicate EdgeEvent(e: Event) {
    e != LockAcquired && e != LockReleased && e != PolicyEvaluated
  }

  /** The event that stands for entering a phase. */
  function MainOf(to: Phase): Event {
    match to
    case Unset => RequestSubmitted
    case Pending => RequestSubmitted
    case AwaitingVerdict => RequestSubmitted
    case Observed => RequestObserved
    case Approved => RequestApproved
    case Executing => RequestExecuting
    case Completed => RequestCompleted
    case Failed => RequestFailed
    case Denied => RequestDenied
    case Expired => RequestExpired
  }

  predicate IsMain(to: Phase, e: Event) {
    e == MainOf(to) || (to == Completed && e == VerdictSubmitted)
  }

  /** How many records stand for the phase change from `from` to `to`. */
  function Count(rec: multiset<AuditKey>, n: string, from: Phase, to: Phase): nat {
    rec[AuditKey(n, MainOf(to), from, to)] + if to == Completed then rec[AuditKey(n, VerdictSubmitted, from, to)] else 0
  }

  ghost predicate OnPath(path: seq<Phase>, from: Phase, to: Phase) {
    exists i, j :: 0 <= i < j < |path| && j == i + 1 && path[i] == from && path[j] == to
  }

  /** The records still to come in the running reconcile, from number `k`. */
  datatype Upcoming = Nothing | Rest(tr: Transition, k: nat)

  function UpcomingFor(b: Ctl, n: string): Upcoming {
    if !b.Busy? || b.n != n then Nothing
    else match b.pc
      case Cleaning(tr) => Rest(tr, 0)
      case Recording(tr, k) => Rest(tr, k)
      case _ => Nothing
  }

  /** Which event of a transition stands for it. */
  function MainAt(tr: Transition): nat {
    if |tr.events| > 0 && IsMain(tr.to, tr.events[0]) then 0 else 1
  }

  /** A transition emits one or two different events, exactly one of which stands for it. */
  predicate GoodEvents(tr: Transition) {
    && MainAt(tr) < |tr.events| <= 2 && IsMain(tr.to, tr.events[MainAt(tr)])
    && (|tr.events| == 2 ==> tr.events[0] != tr.events[1] && !IsMain(tr.to, tr.events[1 - MainAt(tr)]))
  }

  /** Every record is about this request and a phase change it made, once. */
  ghost predicate RecordsSound(n: string, e: Entry) {
    forall k :: k in e.recorded ==>
      && k.request == n
      && (EdgeEvent(k.event) ==> e.recorded[k] == 1 && OnPath(e.path, k.from, k.to))
  }

  /** Each phase change has at most one record standing for it, and exactly one unless the controller
      died or the record is still to come. */
  ghost predicate EdgesCounted(n: string, e: Entry, rest: Upcoming, crashed: bool) {
    forall i, j :: 0 <= i < j < |e.path| && j == i + 1 ==>
      && Count(e.recorded, n, e.path[i], e.path[j]) <= 1
      && (|| Count(e.recorded, n, e.path[i], e.path[j]) == 1 || crashed
          || (rest.Rest? && j == |e.path| - 1 && rest.k <= MainAt(rest.tr)))
  }

  /** Nothing of what is still to come has been recorded yet. */
  predicate RestFresh(n: string, e: Entry, rest: Upcoming) {
    rest.Rest? ==>
      && GoodEvents(rest.tr) && EndsWith(e.path, rest.tr)
      && (forall j :: rest.k <= j < |rest.tr.events| && EdgeEvent(rest.tr.events[j]) ==>
            e.recorded[KeyOf(n, rest.tr, rest.tr.events[j])] == 0)
      && (rest.k <= MainAt(rest.tr) ==> Count(e.recorded, n, rest.tr.from, rest.tr.to) == 0)
  }

  ghost predicate TrailInv(n: string, e: Entry, rest: Upcoming, crashed: bool) {
    RecordsSound(n, e) && EdgesCounted(n, e, rest, crashed) && RestFresh(n, e, rest)
  }

  /** Nothing recorded yet about a phase that was not on the path. */
  lemma NewEdgeFresh(n: string, e: Entry, from: Phase, to: Phase, ev: Event)
    requires RecordsSound(n, e) && PathOk(e.path + [to]) && EdgeEvent(ev)
    ensures e.recorded[AuditKey(n, ev, from, to)] == 0
  {
    var k := AuditKey(n, ev, from, to);
    if k in e.recorded {
      var i, j :| 0 <= i < j < |e.path| && j == i + 1 && e.path[i] == from && e.path[j] == to;
      assert (e.path + [to])[j] == to && (e.path + [to])[|e.path|] == to;
      PathBounded(e.path + [to]);
    }
  }

  lemma MovedTrail(n: string, e: Entry, tr: Transition, read: Approval, crashed: bool)
    requires TrailInv(n, e, Nothing, crashed) && PathInv(e) && PathInv(Moved(e, tr, read))
    requires e.r.phase == tr.from && GoodEvents(tr)
    ensures TrailInv(n, Moved(e, tr, read), Rest(tr, 0), crashed)
  {
    var e' := Moved(e, tr, read);
    assert e'.path == e.path + [tr.to] && e'.recorded == e.recorded;
    forall ev | EdgeEvent(ev) ensures e.recorded[AuditKey(n, ev, tr.from, tr.to)] == 0 {
      NewEdgeFresh(n, e, tr.from, tr.to, ev);
    }
    assert RestFresh(n, e', Rest(tr, 0));
    hide RestFresh, GoodEvents, MainAt;
    MovedRecords(n, e, e', tr.to);
    forall i, j | 0 <= i < j < |e'.path| && j == i + 1
      ensures Count(e.recorded, n, e'.path[i], e'.path[j]) <= 1
      ensures Count(e.recorded, n, e'.path[i], e'.path[j]) == 1 || crashed || j == |e'.path| - 1
    {
      if j < |e.path| { assert e'.path[i] == e.path[i] && e'.path[j] == e.path[j]; }
    }
  }

  lemma MovedRecords(n: string, e: Entry, e': Entry, to: Phase)
    requires RecordsSound(n, e) && e'.path == e.path + [to] && e'.recorded == e.recorded
    ensures RecordsSound(n, e')
  {
    forall k | k in e.recorded && EdgeEvent(k.event) ensures OnPath(e'.path, k.from, k.to) {
      var i, j :| 0 <= i < j < |e.path| && j == i + 1 && e.path[i] == k.from && e.path[j] == k.to;
      assert e'.path[i] == k.from && e'.path[j] == k.to;
    }
  }

  function After(tr: Transition, k: nat): Upcoming {
    if k + 1 < |tr.events| then Rest(tr, k + 1) else Nothing
  }

  lemma SideCounts(e: Entry, k: AuditKey, n: string, from: Phase, to: Phase)
    requires !EdgeEvent(k.event)
    ensures Count(Recorded(e, k).recorded, n, from, to) == Count(e.recorded, n, from, to)
  {
    assert forall k' :: k' != k ==> Recorded(e, k).recorded[k'] == e.recorded[k'];
  }

  lemma SideRecords(n: string, e: Entry, k: AuditKey)
    requires RecordsSound(n, e) && k.request == n && !EdgeEvent(k.event)
    ensures RecordsSound(n, Recorded(e, k))
  {
    hide OnPath;
    assert forall k' :: k' != k ==> Recorded(e, k).recorded[k'] == e.recorded[k'];
  }

  lemma SideEdges(n: string, e: Entry, k: AuditKey, rest: Upcoming, crashed: bool)
    requires EdgesCounted(n, e, rest, crashed) && !EdgeEvent(k.event)
    ensures EdgesCounted(n, Recorded(e, k), rest, crashed)
  {
    var e' := Recorded(e, k);
    assert e'.path == e.path;
    hide Count, Recorded, EdgeEvent, MainAt;
    forall i, j | 0 <= i < j < |e.path| && j == i + 1
      ensures Count(e'.recorded, n, e.path[i], e.path[j]) == Count(e.recorded, n, e.path[i], e.path[j])
    {
      SideCounts(e, k, n, e.path[i], e.path[j]);
    }
  }

  lemma SideRest(n: string, e: Entry, k: AuditKey, rest: Upcoming)
    requires RestFresh(n, e, rest) && !EdgeEvent(k.event)
    ensures RestFresh(n, Recorded(e, k), rest)
  {
    if rest.Rest? { SideCounts(e, k, n, rest.tr.from, rest.tr.to); }
    hide Count, GoodEvents, MainAt;
    assert forall k' :: k' != k ==> Recorded(e, k).recorded[k'] == e.recorded[k'];
  }

  /** An event that is not filed under the phase change leaves the counts alone. */
  lemma SideRecord(n: string, e: Entry, k: AuditKey, rest: Upcoming, crashed: bool)
    requires TrailInv(n, e, rest, crashed) && k.request == n && !EdgeEvent(k.event)
    ensures TrailInv(n, Recorded(e, k), rest, crashed)
  {
    hide RecordsSound, EdgesCounted, RestFresh, Recorded, EdgeEvent;
    SideRecords(n, e, k);
    SideEdges(n, e, k, rest, crashed);
    SideRest(n, e, k, rest);
  }

  lemma SkipSide(n: string, e: Entry, tr: Transition, k: nat, crashed: bool)
    requires TrailInv(n, e, Rest(tr, k), crashed) && k < |tr.events| && !EdgeEvent(tr.events[k])
    ensures TrailInv(n, e, After(tr, k), crashed)
  {
    assert MainAt(tr) != k;
    hide RecordsSound, Count, IsMain, MainAt, KeyOf;
  }

  /** The only phase change between two phases of a path is the one that ends it. */
  lemma LastEdge(path: seq<Phase>, tr: Transition, i: nat, j: nat)
    requires PathOk(path) && EndsWith(path, tr) && i < j < |path| && j == i + 1
    ensures path[j] == tr.to <==> j == |path| - 1
  {
    PathBounded(path);
  }

  lemma RecordsAfter(n: string, e: Entry, tr: Transition, ev: Event)
    requires RecordsSound(n, e) && EndsWith(e.path, tr) && EdgeEvent(ev) && AuditKey(n, ev, tr.from, tr.to) !in e.recorded
    ensures RecordsSound(n, Recorded(e, AuditKey(n, ev, tr.from, tr.to)))
  {
    var key := AuditKey(n, ev, tr.from, tr.to);
    assert forall k' :: k' != key ==> Recorded(e, key).recorded[k'] == e.recorded[k'];
    assert e.path[|e.path| - 2] == tr.from && e.path[|e.path| - 1] == tr.to;
    assert OnPath(e.path, tr.from, tr.to);
    hide OnPath;
  }

  lemma EdgesAfter(n: string, e: Entry, tr: Transition, k: nat, crashed: bool)
    requires EdgesCounted(n, e, Rest(tr, k), crashed) && RestFresh(n, e, Rest(tr, k)) && PathOk(e.path)
    requires k < |tr.events| && EdgeEvent(tr.events[k])
    ensures EdgesCounted(n, Recorded(e, KeyOf(n, tr, tr.events[k])), After(tr, k), crashed)
  {
    var e' := Recorded(e, KeyOf(n, tr, tr.events[k]));
    assert e'.path == e.path;
    hide Count, Recorded, KeyOf, MainOf, EdgeEvent, IsMain;
    RecordedCount(n, e, tr, k);
    forall i, j | 0 <= i < j < |e.path| && j == i + 1
      ensures Count(e'.recorded, n, e.path[i], e.path[j]) <= 1
      ensures || Count(e'.recorded, n, e.path[i], e.path[j]) == 1 || crashed
              || (After(tr, k).Rest? && j == |e.path| - 1 && k + 1 <= MainAt(tr))
    {
      LastEdge(e.path, tr, i, j);
    }
  }

  lemma EdgeRecord(n: string, e: Entry, tr: Transition, k: nat, crashed: bool)
    requires TrailInv(n, e, Rest(tr, k), crashed) && PathInv(e) && k < |tr.events| && EdgeEvent(tr.events[k])
    ensures TrailInv(n, Recorded(e, KeyOf(n, tr, tr.events[k])), After(tr, k), crashed)
    ensures KeyOf(n, tr, tr.events[k]) !in e.recorded
  {
    hide RecordsSound, EdgesCounted, PathOk;
    RestAfter(n, e, tr, k);
    EdgesAfter(n, e, tr, k, crashed);
    RecordsAfter(n, e, tr, tr.events[k]);
  }

  lemma RecordedCount(n: string, e: Entry, tr: Transition, k: nat)
    requires k < |tr.events| && EdgeEvent(tr.events[k])
    ensures forall from, to :: to != tr.to ==>
              Count(Recorded(e, KeyOf(n, tr, tr.events[k])).recorded, n, from, to) == Count(e.recorded, n, from, to)
    ensures Count(Recorded(e, KeyOf(n, tr, tr.events[k])).recorded, n, tr.from, tr.to) ==
              Count(e.recorded, n, tr.from, tr.to) + if IsMain(tr.to, tr.events[k]) then 1 else 0
  {
    var key := KeyOf(n, tr, tr.events[k]);
    assert forall k' :: k' != key ==> Recorded(e, key).recorded[k'] == e.recorded[k'];
  }

  lemma RestAfter(n: string, e: Entry, tr: Transition, k: nat)
    requires RestFresh(n, e, Rest(tr, k)) && k < |tr.events| && EdgeEvent(tr.events[k])
    ensures RestFresh(n, Recorded(e, KeyOf(n, tr, tr.events[k])), After(tr, k))
  {
    RecordedCount(n, e, tr, k);
  }
}

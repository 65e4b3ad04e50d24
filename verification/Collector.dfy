/** One collector run over AgentRequests: the safety valve, the pages, and what is deleted. */
module Collector {
  import opened Api

  datatype Object = Object(name: string, phase: Phase, created: int)

  datatype GCConfig = GCConfig(hardTTL: int, safetyMinCount: int, dryRun: bool)

  /** The clock at the k-th object, the deletes that fail, and how many deletions the rate limiter lets
      through before it gives up. */
  datatype World = World(now: nat -> int, fails: string -> bool, permits: nat)

  datatype Tally = Tally(evaluated: nat, skipped: nat, waits: nat, deleted: seq<string>)

  predicate Due(cfg: GCConfig, w: World, o: Object, k: nat) {
    Terminal(o.phase) && w.now(k) - o.created >= cfg.hardTTL
  }

  function CountTerminal(s: seq<Object>): nat {
    if s == [] then 0 else CountTerminal(s[..|s| - 1]) + if Terminal(s[|s| - 1].phase) then 1 else 0
  }

  predicate ValveOpen(cfg: GCConfig, first: seq<Object>, more: bool) {
    CountTerminal(first) >= cfg.safetyMinCount || more
  }

  function Flatten(pages: seq<seq<Object>>): seq<Object> {
    if pages == [] then [] else Flatten(pages[..|pages| - 1]) + pages[|pages| - 1]
  }

  /** What a run has done after the first objects of the scan, as long as the limiter lets it. */
  function Scan(cfg: GCConfig, w: World, s: seq<Object>): Tally {
    if s == [] then Tally(0, 0, 0, [])
    else
      var t, o := Scan(cfg, w, s[..|s| - 1]), s[|s| - 1];
      if !Due(cfg, w, o, |s| - 1) then t.(evaluated := t.evaluated + 1)
      else if cfg.dryRun then t.(evaluated := t.evaluated + 1, skipped := t.skipped + 1)
      else t.(evaluated := t.evaluated + 1, waits := t.waits + 1,
              deleted := if w.fails(o.name) then t.deleted else t.deleted + [o.name])
  }

  /** processRequest. */
  method ProcessRequest(cfg: GCConfig, w: World, o: Object, k: nat, t: Tally, ghost s: seq<Object>) returns (ok: bool, t': Tally)
    requires k < |s| && s[k] == o && t == Scan(cfg, w, s[..k]) && t.waits <= w.permits
    ensures ok ==> t' == Scan(cfg, w, s[..k + 1]) && t'.waits <= w.permits
    ensures !ok ==> t'.deleted == t.deleted && Due(cfg, w, s[k], k) && !cfg.dryRun && t.waits == w.permits
  {
    assert s[..k + 1][..k] == s[..k];
    t', ok := t.(evaluated := t.evaluated + 1), true;
    if !Terminal(o.phase) { return; }
    var age := w.now(k) - o.created;
    if age < cfg.hardTTL { return; }
    if cfg.dryRun {
      t' := t'.(skipped := t'.skipped + 1);
      return;
    }
    if t.waits == w.permits { return false, t'; }
    t' := t'.(waits := t'.waits + 1);
    if !w.fails(o.name) { t' := t'.(deleted := t'.deleted + [o.name]); }
  }

  lemma {:induction false} FlattenSnoc(pages: seq<seq<Object>>, p: nat)
    requires p < |pages|
    ensures Flatten(pages[..p + 1]) == Flatten(pages[..p]) + pages[p]
  {
    assert pages[..p + 1][..p] == pages[..p];
  }

  lemma {:induction false} FlattenPrefix(pages: seq<seq<Object>>, p: nat)
    requires p <= |pages|
    ensures |Flatten(pages[..p])| <= |Flatten(pages)| && Flatten(pages)[..|Flatten(pages[..p])|] == Flatten(pages[..p])
    decreases |pages|
  {
    if p == |pages| {
      assert pages[..p] == pages;
    } else {
      var rest := pages[..|pages| - 1];
      FlattenPrefix(rest, p);
      assert rest[..p] == pages[..p];
      assert Flatten(pages)[..|Flatten(rest)|] == Flatten(rest);
    }
  }

  lemma PageItem(pages: seq<seq<Object>>, p: nat, i: nat)
    requires p < |pages| && i <= |pages[p]|
    ensures |Flatten(pages[..p])| + i <= |Flatten(pages)|
    ensures i < |pages[p]| ==> |Flatten(pages[..p])| + i < |Flatten(pages)| && Flatten(pages)[|Flatten(pages[..p])| + i] == pages[p][i]
  {
    FlattenSnoc(pages, p);
    FlattenPrefix(pages, p + 1);
    var f, g := Flatten(pages), Flatten(pages[..p + 1]);
    assert f[..|g|] == g;
    if i < |pages[p]| { assert g[|Flatten(pages[..p])| + i] == f[..|g|][|Flatten(pages[..p])| + i]; }
  }

  /** Run: nothing without a TTL or with the valve shut; otherwise every due object of every page in turn,
      until the rate limiter gives up. */
  method Run(cfg: GCConfig, w: World, first: seq<Object>, more: bool, pages: seq<seq<Object>>) returns (ok: bool, t: Tally)
    ensures cfg.hardTTL == 0 || !ValveOpen(cfg, first, more) ==> ok && t == Tally(0, 0, 0, [])
    ensures cfg.hardTTL != 0 && ValveOpen(cfg, first, more) && ok ==> t == Scan(cfg, w, Flatten(pages))
    ensures !ok ==> exists k :: 0 <= k < |Flatten(pages)| && t.deleted == Scan(cfg, w, Flatten(pages)[..k]).deleted
                                && Scan(cfg, w, Flatten(pages)[..k]).waits == w.permits
  {
    ok, t := true, Tally(0, 0, 0, []);
    if cfg.hardTTL == 0 { return; }
    var terminal := 0;
    for i := 0 to |first|
      invariant terminal == CountTerminal(first[..i])
    {
      assert first[..i + 1][..i] == first[..i];
      if Terminal(first[i].phase) { terminal := terminal + 1; }
    }
    assert first[..|first|] == first;
    if terminal < cfg.safetyMinCount && !more { return; }
    ok, t := ScanPages(cfg, w, pages);
  }

  /** The paging loop. */
  method ScanPages(cfg: GCConfig, w: World, pages: seq<seq<Object>>) returns (ok: bool, t: Tally)
    ensures ok ==> t == Scan(cfg, w, Flatten(pages))
    ensures !ok ==> exists k :: 0 <= k < |Flatten(pages)| && t.deleted == Scan(cfg, w, Flatten(pages)[..k]).deleted
                                && Scan(cfg, w, Flatten(pages)[..k]).waits == w.permits
  {
    ok, t := true, Tally(0, 0, 0, []);
    ghost var all := Flatten(pages);
    assert all[..0] == [];
    assert pages[..0] == [];
    var k := 0;
    for p := 0 to |pages|
      invariant k == |Flatten(pages[..p])| <= |all| && t == Scan(cfg, w, all[..k]) && t.waits <= w.permits && ok
    {
      hide Scan;
      for i := 0 to |pages[p]|
        invariant k == |Flatten(pages[..p])| + i <= |all| && t == Scan(cfg, w, all[..k]) && t.waits <= w.permits && ok
      {
        PageItem(pages, p, i);
        ok, t := ProcessRequest(cfg, w, pages[p][i], k, t, all);
        if !ok { return; }
        k := k + 1;
      }
      FlattenSnoc(pages, p);
    }
    assert pages[..|pages|] == pages;
    assert all[..k] == all;
  }

  /** Everything a scan deletes was at an end and at least the TTL old when it was looked at; a dry run
      deletes nothing. */
  lemma {:induction false} DeletesOnlyDue(cfg: GCConfig, w: World, s: seq<Object>, name: string)
    requires name in Scan(cfg, w, s).deleted
    ensures !cfg.dryRun && !w.fails(name)
    ensures exists k :: && 0 <= k < |s| && s[k].name == name && s[k].phase in {Completed, Failed, Denied, Expired}
                        && w.now(k) >= s[k].created + cfg.hardTTL
  {
    var rest, o := s[..|s| - 1], s[|s| - 1];
    if name in Scan(cfg, w, rest).deleted {
      DeletesOnlyDue(cfg, w, rest, name);
      var k :| && 0 <= k < |rest| && rest[k].name == name && rest[k].phase in {Completed, Failed, Denied, Expired}
               && w.now(k) >= rest[k].created + cfg.hardTTL;
      assert s[k] == rest[k];
    }
  }

  /** And nothing that is due and can be deleted is left out. */
  lemma {:induction false} DeletesAllDue(cfg: GCConfig, w: World, s: seq<Object>, k: nat)
    requires k < |s| && s[k].phase in {Completed, Failed, Denied, Expired} && w.now(k) >= s[k].created + cfg.hardTTL
    requires !cfg.dryRun && !w.fails(s[k].name)
    ensures s[k].name in Scan(cfg, w, s).deleted
  {
    if k < |s| - 1 {
      assert s[..|s| - 1][k] == s[k];
      DeletesAllDue(cfg, w, s[..|s| - 1], k);
    }
  }

  /** A scan looks at everything once; it counts what is due as passed over in a dry run, and asks the
      limiter for each otherwise. */
  lemma {:induction false} ScanCounts(cfg: GCConfig, w: World, s: seq<Object>)
    ensures var t, due := Scan(cfg, w, s), DueSet(cfg, w, s);
            && t.evaluated == |s| && t.skipped == (if cfg.dryRun then |due| else 0)
            && t.waits == (if cfg.dryRun then 0 else |due|) && |t.deleted| <= t.waits
  {
    if s != [] {
      var n := |s| - 1;
      hide DueSet, Due;
      DueSnoc(cfg, w, s);
      ScanCounts(cfg, w, s[..n]);
    }
  }

  predicate AtEnd(o: Object) {
    o.phase in {Completed, Failed, Denied, Expired}
  }

  /** The positions of the objects that are due when looked at. */
  function DueSet(cfg: GCConfig, w: World, s: seq<Object>): set<nat> {
    set k: nat | k < |s| && AtEnd(s[k]) && w.now(k) >= s[k].created + cfg.hardTTL
  }

  lemma DueSnoc(cfg: GCConfig, w: World, s: seq<Object>)
    requires s != []
    ensures var n := |s| - 1; |DueSet(cfg, w, s)| == |DueSet(cfg, w, s[..n])| + if Due(cfg, w, s[n], n) then 1 else 0
  {
    hide Terminal, AtEnd;
    var n := |s| - 1;
    EndMeans(s[n]);
    var a, b := DueSet(cfg, w, s[..n]), DueSet(cfg, w, s);
    assert b - {n} == a && n !in a;
  }

  lemma EndMeans(o: Object)
    ensures AtEnd(o) <==> Terminal(o.phase)
  {
  }

  function EndSet(s: seq<Object>): set<nat> {
    set k: nat | k < |s| && AtEnd(s[k])
  }

  /** The valve counts the requests of the first page that are at an end. */
  lemma {:induction false} ValveCounts(s: seq<Object>)
    ensures CountTerminal(s) == |EndSet(s)|
  {
    if s != [] {
      hide Terminal, AtEnd;
      var n := |s| - 1;
      EndMeans(s[n]);
      ValveCounts(s[..n]);
      var a, b := EndSet(s[..n]), EndSet(s);
      assert b - {n} == a && n !in a;
    }
  }
}

/** Incremental accuracy counting with a bounded memory of counted names, against the plain tally. */
module Accuracy {
  import opened Api
  import RollingAccuracy

  const MEMORY: nat := 100

  /** A reconcile event for a request: its name, verdict ("" while ungraded) and reason code. */
  datatype Delivery = Delivery(name: string, verdict: string, reasonCode: string)

  datatype Counters = Counters(total: nat, correct: nat, partial: nat, incorrect: nat)

  datatype State = State(counters: Counters, recent: seq<string>)

  const EMPTY := State(Counters(0, 0, 0, 0), [])

  predicate Counts(d: Delivery) {
    d.verdict != "" && !RollingAccuracy.Skipped(d.reasonCode)
  }

  function Add(c: Counters, verdict: string): Counters {
    Counters(c.total + 1,
             c.correct + if verdict == "correct" then 1 else 0,
             c.partial + if verdict == "partial" then 1 else 0,
             c.incorrect + if verdict == "incorrect" then 1 else 0)
  }

  function Newest<T>(s: seq<T>): seq<T> {
    if |s| > MEMORY then s[|s| - MEMORY..] else s
  }

  function Deliver(s: State, d: Delivery): State {
    if !Counts(d) || d.name in s.recent then s
    else State(Add(s.counters, d.verdict), Newest(s.recent + [d.name]))
  }

  function Ratio(c: Counters): (acc: Option<real>)
    requires c.correct + c.partial + c.incorrect <= c.total
    ensures c.total > 0 <==> acc.Some?
    ensures acc.Some? ==> 0.0 <= acc.value <= 1.0
  {
    if c.total == 0 then None
    else
      RollingAccuracy.Ratio(c.correct, c.partial, c.total);
      Some((c.correct as real + 0.5 * c.partial as real) / c.total as real)
  }

  /** The stored DiagnosticAccuracySummary. */
  class Summary {
    var totalReviewed: nat
    var correctCount: nat
    var partialCount: nat
    var incorrectCount: nat
    var diagnosticAccuracy: Option<real>
    var recentVerdicts: seq<string>

    function Abs(): State
      reads this
    {
      State(Counters(totalReviewed, correctCount, partialCount, incorrectCount), recentVerdicts)
    }

    predicate Valid()
      reads this
    {
      && correctCount + partialCount + incorrectCount <= totalReviewed && |recentVerdicts| <= MEMORY
      && diagnosticAccuracy == Ratio(Abs().counters)
    }

    constructor ()
      ensures Valid() && Abs() == EMPTY
    {
      totalReviewed, correctCount, partialCount, incorrectCount := 0, 0, 0, 0;
      diagnosticAccuracy, recentVerdicts := None, [];
    }

    /** The counting body of Reconcile. */
    method Reconcile(d: Delivery)
      requires Valid()
      modifies this
      ensures Valid() && Abs() == Deliver(old(Abs()), d)
    {
      if d.verdict == "" || RollingAccuracy.Skipped(d.reasonCode) || d.name in recentVerdicts { return; }
      totalReviewed := totalReviewed + 1;
      if d.verdict == "correct" {
        correctCount := correctCount + 1;
      } else if d.verdict == "partial" {
        partialCount := partialCount + 1;
      } else if d.verdict == "incorrect" {
        incorrectCount := incorrectCount + 1;
      }
      RollingAccuracy.Ratio(correctCount, partialCount, totalReviewed);
      diagnosticAccuracy := Some((correctCount as real + 0.5 * partialCount as real) / totalReviewed as real);
      recentVerdicts := recentVerdicts + [d.name];
      if |recentVerdicts| > MEMORY { recentVerdicts := recentVerdicts[|recentVerdicts| - MEMORY..]; }
    }
  }

  // ---------- whole delivery sequences ----------

  function Fold(ds: seq<Delivery>): State {
    if ds == [] then EMPTY else Deliver(Fold(ds[..|ds| - 1]), ds[|ds| - 1])
  }

  function Names(ds: seq<Delivery>): seq<string> {
    seq(|ds|, i requires 0 <= i < |ds| => ds[i].name)
  }

  /** The first counting delivery of each name, in order. */
  function Firsts(ds: seq<Delivery>): seq<Delivery> {
    if ds == [] then []
    else
      var before, d := Firsts(ds[..|ds| - 1]), ds[|ds| - 1];
      if Counts(d) && d.name !in Names(before) then before + [d] else before
  }

  /** Every counting redelivery of a name finds it among the 100 most recently introduced names: at most
      99 newer ones have come since. */
  predicate Prompt(ds: seq<Delivery>) {
    forall k :: 0 <= k < |ds| && Counts(ds[k]) && ds[k].name in Names(Firsts(ds[..k])) ==>
      ds[k].name in Newest(Names(Firsts(ds[..k])))
  }

  /** The plain tally. */
  function Tally(ds: seq<Delivery>): Counters {
    if ds == [] then EMPTY.counters else Add(Tally(ds[..|ds| - 1]), ds[|ds| - 1].verdict)
  }

  lemma NamesSnoc(ds: seq<Delivery>, d: Delivery)
    ensures Names(ds + [d]) == Names(ds) + [d.name]
  {
  }

  lemma NewestSnoc(s: seq<string>, x: string)
    ensures Newest(Newest(s) + [x]) == Newest(s + [x])
  {
  }

  predicate Remembered(d: Delivery, names: seq<string>) {
    Counts(d) && d.name in names ==> d.name in Newest(names)
  }

  lemma PromptBefore(ds: seq<Delivery>)
    requires ds != []
    ensures Prompt(ds) <==> (Prompt(ds[..|ds| - 1]) && Remembered(ds[|ds| - 1], Names(Firsts(ds[..|ds| - 1]))))
  {
    hide Counts, Firsts, Names, Newest;
    var rest := ds[..|ds| - 1];
    assert forall k :: 0 <= k < |rest| ==> rest[..k] == ds[..k] && rest[k] == ds[k];
  }

  lemma {:induction false} TotalIsLength(ds: seq<Delivery>)
    ensures Tally(ds).total == |ds|
  {
    if ds != [] { TotalIsLength(ds[..|ds| - 1]); }
  }

  /** As long as redeliveries are prompt, the memory holds the newest names and the counters are the
      tally over distinct names; and never fewer than the distinct names are counted. */
  lemma {:induction false} CountedOnce(ds: seq<Delivery>)
    ensures Fold(ds).counters.total >= |Firsts(ds)|
    ensures forall x :: x in Fold(ds).recent ==> x in Names(Firsts(ds))
    ensures Prompt(ds) ==> Fold(ds) == State(Tally(Firsts(ds)), Newest(Names(Firsts(ds))))
    ensures !Prompt(ds) ==> Fold(ds).counters.total > |Firsts(ds)|
  {
    if ds != [] {
      var rest, d := ds[..|ds| - 1], ds[|ds| - 1];
      CountedOnce(rest);
      PromptBefore(ds);
      var before, names := Firsts(rest), Names(Firsts(rest));
      TotalIsLength(before);
      if Counts(d) {
        NamesSnoc(before, d);
        NewestSnoc(names, d.name);
        assert (before + [d])[..|before|] == before;
        hide Counts, Prompt, Add;
        CountStep(Fold(rest), d, names);
      }
    }
  }

  lemma CountStep(s: State, d: Delivery, names: seq<string>)
    requires Counts(d) && forall x :: x in s.recent ==> x in names
    ensures forall x :: x in Deliver(s, d).recent ==> x in names || x == d.name
    ensures d.name !in names ==> Deliver(s, d) == State(Add(s.counters, d.verdict), Newest(s.recent + [d.name]))
    ensures Deliver(s, d).counters.total == s.counters.total + if d.name in s.recent then 0 else 1
  {
  }

  /** Exactly-once counting: the counters are the tally over the distinct counting names if and only if
      every redelivery comes while its name is still remembered. */
  lemma ExactlyOnce(ds: seq<Delivery>)
    ensures Prompt(ds) <==> Fold(ds).counters.total == |Firsts(ds)|
    ensures Prompt(ds) <==> Fold(ds).counters == Tally(Firsts(ds))
  {
    CountedOnce(ds);
    TotalIsLength(Firsts(ds));
  }

  lemma {:induction false} AllFirst(ds: seq<Delivery>)
    requires NoTwin(ds) && forall d :: d in ds ==> Counts(d)
    ensures Firsts(ds) == ds
  {
    if ds != [] {
      var rest, d := ds[..|ds| - 1], ds[|ds| - 1];
      assert ds == rest + [d];
      AllFirst(rest);
      assert forall i :: 0 <= i < |rest| ==> Names(rest)[i] == ds[i].name;
    }
  }

  /** Once more than a hundred names have been counted, the first comes around again and is counted twice. */
  lemma LateRedelivery(ds: seq<Delivery>)
    requires |ds| > MEMORY && NoTwin(ds) && forall d :: d in ds ==> Counts(d)
    ensures Firsts(ds + [ds[0]]) == ds && Fold(ds + [ds[0]]).counters.total > |ds|
  {
    var all := ds + [ds[0]];
    AllFirst(ds);
    assert all[..|ds|] == ds && all[|ds|] == ds[0] && ds[0] in ds;
    Forgotten(ds);
    hide Newest, Names, NoTwin, Counts;
    AgainFirst(ds, ds[0]);
    PromptBefore(all);
    CountedOnce(all);
  }

  lemma Forgotten(ds: seq<Delivery>)
    requires |ds| > MEMORY && NoTwin(ds)
    ensures ds[0].name in Names(ds) && ds[0].name !in Newest(Names(ds))
  {
    var names := Names(ds);
    assert names[0] == ds[0].name;
    assert forall i :: 0 <= i < |Newest(names)| ==> Newest(names)[i] == ds[|ds| - MEMORY + i].name;
  }

  lemma AgainFirst(ds: seq<Delivery>, d: Delivery)
    requires d.name in Names(Firsts(ds))
    ensures Firsts(ds + [d]) == Firsts(ds)
  {
    assert (ds + [d])[..|ds|] == ds;
  }

  function Nth(i: nat): Delivery {
    Delivery(seq(i, _ => 'a'), "correct", "")
  }

  /** 101 requests and one late redelivery: 102 are counted where there are 101. */
  lemma Overcounted()
    ensures var ds := seq(101, i requires 0 <= i < 101 => Nth(i));
            |Firsts(ds + [ds[0]])| == 101 && Fold(ds + [ds[0]]).counters.total > 101
  {
    var ds := seq(101, i requires 0 <= i < 101 => Nth(i));
    forall i, j | 0 <= i < j < |ds| ensures ds[i].name != ds[j].name {
      assert |ds[i].name| == i && |ds[j].name| == j;
    }
    LateRedelivery(ds);
  }

  /** With only the three verdicts in use, the three counts add up to the total. */
  lemma {:induction false} CountsAddUp(ds: seq<Delivery>)
    requires forall i :: 0 <= i < |ds| ==> ds[i].verdict in ["", "correct", "partial", "incorrect"]
    ensures var c := Fold(ds).counters; c.total == c.correct + c.partial + c.incorrect
  {
    if ds != [] { CountsAddUp(ds[..|ds| - 1]); }
  }

  // ---------- what is counted ----------

  function VerdictsOf(ds: seq<Delivery>): (vs: seq<string>)
    ensures |vs| == |ds|
  {
    seq(|ds|, i requires 0 <= i < |ds| => ds[i].verdict)
  }

  /** The counters of a tally are the numbers of deliveries with each verdict, and its ratio is the average
      with one point for a correct verdict and half a point for a partial one. */
  lemma {:induction false} TallyExactly(ds: seq<Delivery>)
    ensures var c, vs := Tally(ds), multiset(VerdictsOf(ds));
            c == Counters(|ds|, vs["correct"], vs["partial"], vs["incorrect"])
    ensures RollingAccuracy.Points(VerdictsOf(ds)) == Tally(ds).correct as real + 0.5 * Tally(ds).partial as real
  {
    if ds != [] {
      var rest, v := ds[..|ds| - 1], ds[|ds| - 1].verdict;
      TallyExactly(rest);
      assert VerdictsOf(ds) == VerdictsOf(rest) + [v];
      assert VerdictsOf(ds)[..|rest|] == VerdictsOf(rest);
    }
  }

  lemma {:induction false} TallyWithin(ds: seq<Delivery>)
    ensures Tally(ds).correct + Tally(ds).partial + Tally(ds).incorrect <= Tally(ds).total == |ds|
  {
    if ds != [] { TallyWithin(ds[..|ds| - 1]); }
  }

  lemma RatioAverages(ds: seq<Delivery>)
    requires ds != []
    ensures var c := Tally(ds);
            && c.correct + c.partial + c.incorrect <= c.total
            && Ratio(c) == Some(RollingAccuracy.Points(VerdictsOf(ds)) / |ds| as real)
  {
    hide Tally, RollingAccuracy.Points, VerdictsOf;
    TallyWithin(ds);
    var points := RollingAccuracy.Points(VerdictsOf(ds));
    assert Tally(ds).correct as real + 0.5 * Tally(ds).partial as real == points by { TallyExactly(ds); }
  }

  /** Of each name with a graded delivery whose reason speaks about the diagnosis, one such delivery is
      among the firsts, and nothing else is. */
  lemma FirstsExactly(ds: seq<Delivery>)
    ensures NoTwin(Firsts(ds))
    ensures forall d :: d in Firsts(ds) ==> d in ds && d.verdict != "" && d.reasonCode !in SKIPPED
    ensures forall d :: d in ds && d.verdict != "" && d.reasonCode !in SKIPPED ==> d.name in Names(Firsts(ds))
  {
    FirstsFacts(ds);
    forall d: Delivery ensures Counts(d) <==> d.verdict != "" && d.reasonCode !in SKIPPED { SkippedMeans(d.reasonCode); }
  }

  const SKIPPED := ["bad_timing", "scope_too_broad", "precautionary", "policy_block"]

  lemma SkippedMeans(code: string)
    ensures RollingAccuracy.Skipped(code) <==> code in SKIPPED
  {
  }

  /** A name is remembered exactly as long as at most 99 newer ones have come. */
  lemma RememberedExactly(names: seq<string>, i: nat)
    requires i < |names| && forall j, k :: 0 <= j < k < |names| ==> names[j] != names[k]
    ensures names[i] in Newest(names) <==> |names| - i - 1 <= 99
  {
    var s := Newest(names);
    if |names| - i <= 100 { assert names[i] == s[i - (|names| - |s|)]; }
    assert forall j :: 0 <= j < |s| ==> s[j] == names[|names| - |s| + j];
  }

  // ---------- recompute ----------

  /** A stored request as the recompute endpoint lists it. */
  datatype Item = Item(agent: string, delivery: Delivery)

  /** The request is graded and goes into the summary of this name; `agentId` restricts it to one agent. */
  predicate Belongs(x: Item, profile: string -> string, agentId: string, name: string) {
    (agentId == "" || x.agent == agentId) && profile(x.agent) == name && x.delivery.verdict != ""
  }

  /** The graded requests of one summary, whatever their reason code. Summaries are named by profile, so
      agents whose profile names coincide share one. */
  function Graded(items: seq<Item>, profile: string -> string, agentId: string, name: string): seq<Delivery> {
    if items == [] then []
    else
      var last := items[|items| - 1];
      Graded(items[..|items| - 1], profile, agentId, name) + if Belongs(last, profile, agentId, name) then [last.delivery] else []
  }

  /** A request goes into a summary exactly if its agent has that profile and is the one asked for, if any
      is, and it is graded; in the order of the list. */
  lemma {:induction false} GradedExactly(items: seq<Item>, profile: string -> string, agentId: string, name: string, d: Delivery)
    ensures d in Graded(items, profile, agentId, name) <==>
            exists i :: && 0 <= i < |items| && items[i].delivery == d && d.verdict != "" && profile(items[i].agent) == name
                        && (agentId == "" || agentId == items[i].agent)
  {
    if items != [] {
      var rest, last := items[..|items| - 1], items[|items| - 1];
      GradedExactly(rest, profile, agentId, name, d);
      assert forall i :: 0 <= i < |rest| ==> rest[i] == items[i];
      assert last == items[|items| - 1];
    }
  }

  lemma GradedSnoc(items: seq<Item>, i: nat, profile: string -> string, agentId: string, name: string)
    requires i < |items|
    ensures Graded(items[..i + 1], profile, agentId, name) ==
            Graded(items[..i], profile, agentId, name) + if Belongs(items[i], profile, agentId, name) then [items[i].delivery] else []
  {
    assert items[..i + 1][..i] == items[..i];
  }

  lemma TallySnoc(ds: seq<Delivery>, d: Delivery)
    ensures Tally(ds + [d]) == Add(Tally(ds), d.verdict)
  {
    assert (ds + [d])[..|ds|] == ds;
  }

  /** What the statistics say of one summary: its tally, if any graded request goes into it. */
  predicate StatOf(stats: map<string, Counters>, items: seq<Item>, profile: string -> string, agentId: string, name: string) {
    && (name in stats <==> Graded(items, profile, agentId, name) != [])
    && (name in stats ==> stats[name] == Tally(Graded(items, profile, agentId, name)))
  }

  ghost predicate StatsOf(stats: map<string, Counters>, items: seq<Item>, profile: string -> string, agentId: string) {
    forall name :: StatOf(stats, items, profile, agentId, name)
  }

  function Counted(stats: map<string, Counters>, x: Item, profile: string -> string, agentId: string): map<string, Counters> {
    if (agentId != "" && x.agent != agentId) || x.delivery.verdict == "" then stats
    else
      var name := profile(x.agent);
      stats[name := Add(if name in stats then stats[name] else EMPTY.counters, x.delivery.verdict)]
  }

  lemma StatStep(stats: map<string, Counters>, items: seq<Item>, i: nat, profile: string -> string, agentId: string, name: string)
    requires i < |items| && StatOf(stats, items[..i], profile, agentId, name)
    ensures StatOf(Counted(stats, items[i], profile, agentId), items[..i + 1], profile, agentId, name)
  {
    GradedSnoc(items, i, profile, agentId, name);
    hide Graded;
    CountedStep(stats, items[i], profile, agentId, name, Graded(items[..i], profile, agentId, name));
  }

  lemma CountedStep(stats: map<string, Counters>, x: Item, profile: string -> string, agentId: string, name: string,
                    before: seq<Delivery>)
    requires (name in stats <==> before != []) && (name in stats ==> stats[name] == Tally(before))
    ensures var stats', after := Counted(stats, x, profile, agentId),
                                 before + if Belongs(x, profile, agentId, name) then [x.delivery] else [];
            (name in stats' <==> after != []) && (name in stats' ==> stats'[name] == Tally(after))
  {
    assert before + [] == before && Tally([]) == EMPTY.counters;
    TallySnoc(before, x.delivery);
    hide Tally, Add;
  }

  /** recomputeAccuracyForAgent: the tallies of all summaries, or of one agent's, from scratch. */
  method Recompute(items: seq<Item>, profile: string -> string, agentId: string) returns (stats: map<string, Counters>)
    ensures forall name :: StatOf(stats, items, profile, agentId, name)
  {
    stats := map[];
    for i := 0 to |items|
      invariant StatsOf(stats, items[..i], profile, agentId)
    {
      var agent, d := items[i].agent, items[i].delivery;
      ghost var stats', seen := Counted(stats, items[i], profile, agentId), items[..i + 1];
      forall name ensures StatOf(stats', seen, profile, agentId, name) {
        StatStep(stats, items, i, profile, agentId, name);
      }
      if (agentId != "" && agent != agentId) || d.verdict == "" { continue; }
      var name := profile(agent);
      var c := if name in stats then stats[name] else EMPTY.counters;
      stats := stats[name := Add(c, d.verdict)];
    }
    assert items[..|items|] == items;
    assert forall name :: StatOf(stats, items, profile, agentId, name);
  }

  predicate NoTwin(ds: seq<Delivery>) {
    forall i, j :: 0 <= i < j < |ds| ==> ds[i].name != ds[j].name
  }

  lemma AddCommutes(c: Counters, v: string, w: string)
    ensures Add(Add(c, v), w) == Add(Add(c, w), v)
  {
  }

  lemma {:induction false} TallyWithout(ds: seq<Delivery>, i: nat)
    requires i < |ds|
    ensures Tally(ds) == Add(Tally(ds[..i] + ds[i + 1..]), ds[i].verdict)
  {
    hide Add;
    var last := |ds| - 1;
    if i == last {
      assert ds[..i] + ds[i + 1..] == ds[..last];
    } else {
      var rest := ds[..last];
      TallyWithout(rest, i);
      assert (ds[..i] + ds[i + 1..])[..last - 1] == rest[..i] + rest[i + 1..];
      AddCommutes(Tally(rest[..i] + rest[i + 1..]), ds[i].verdict, ds[last].verdict);
    }
  }

  lemma {:induction false} TallySameRequests(a: seq<Delivery>, b: seq<Delivery>)
    requires NoTwin(a) && NoTwin(b) && forall d :: d in a <==> d in b
    ensures Tally(a) == Tally(b)
  {
    if a == [] {
      NothingIn(b);
    } else {
      var rest, d := a[..|a| - 1], a[|a| - 1];
      assert d in a;
      var i :| 0 <= i < |b| && b[i] == d;
      var b' := b[..i] + b[i + 1..];
      TallyWithout(b, i);
      Without(a, |a| - 1);
      Without(b, i);
      assert a[..|a| - 1] + a[|a| - 1 + 1..] == rest;
      assert forall x :: x in rest <==> x in a && x != d;
      assert forall x :: x in b' <==> x in b && x != d;
      TallySameRequests(rest, b');
    }
  }

  lemma NothingIn(b: seq<Delivery>)
    requires forall d :: d !in b
    ensures b == []
  {
    if b != [] { HasFirst(b); }
  }

  lemma HasFirst(b: seq<Delivery>)
    requires b != []
    ensures b[0] in b
  {
  }

  lemma Without(ds: seq<Delivery>, i: nat)
    requires NoTwin(ds) && i < |ds|
    ensures NoTwin(ds[..i] + ds[i + 1..])
    ensures forall d :: d in ds[..i] + ds[i + 1..] <==> d in ds && d != ds[i]
  {
    assert ds == ds[..i] + [ds[i]] + ds[i + 1..];
  }

  lemma {:induction false} FirstsFacts(ds: seq<Delivery>)
    ensures NoTwin(Firsts(ds)) && forall d :: d in Firsts(ds) ==> d in ds && Counts(d)
    ensures forall d :: d in ds && Counts(d) ==> d.name in Names(Firsts(ds))
  {
    if ds != [] {
      var rest, d := ds[..|ds| - 1], ds[|ds| - 1];
      FirstsFacts(rest);
      assert ds == rest + [d];
      NamesSnoc(Firsts(rest), d);
      assert forall i :: 0 <= i < |Firsts(rest)| ==> Names(Firsts(rest))[i] == Firsts(rest)[i].name;
    }
  }

  /** When every graded request of a summary counts and is delivered, promptly, the incremental counters
      equal the recomputed ones. */
  lemma RecomputeAgrees(ds: seq<Delivery>, items: seq<Item>, profile: string -> string, name: string)
    requires var all := Graded(items, profile, "", name);
             && NoTwin(all) && (forall d :: d in all ==> Counts(d) && d in ds)
             && (forall d :: d in ds && Counts(d) ==> d in all)
    requires Prompt(ds)
    ensures Fold(ds).counters == Tally(Graded(items, profile, "", name))
  {
    hide Counts, Graded, Firsts, Fold, Tally, Prompt, Newest;
    var all, firsts := Graded(items, profile, "", name), Firsts(ds);
    CountedOnce(ds);
    FirstsFacts(ds);
    forall d | d in all ensures d in firsts {
      assert d.name in Names(firsts);
      var i :| 0 <= i < |firsts| && Names(firsts)[i] == d.name;
      assert firsts[i] in firsts && firsts[i] in all;
    }
    TallySameRequests(firsts, all);
  }
}

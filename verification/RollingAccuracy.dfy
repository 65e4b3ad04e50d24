/** Diagnostic accuracy over the newest verdicts: filter the audit records, sort them by time, cut the
    window, tally. */
module RollingAccuracy {
  import opened Api

  const CORRECT := "correct"
  const PARTIAL := "partial"

  datatype AuditRecord = AuditRecord(verdictEvent: bool, verdict: string, reasonCode: string, at: int)

  datatype Entry = Entry(verdict: string, at: int)

  /** Reason codes that do not speak about the diagnosis. */
  predicate Skipped(code: string) {
    code == "bad_timing" || code == "scope_too_broad" || code == "precautionary" || code == "policy_block"
  }

  predicate Counts(a: AuditRecord) {
    a.verdictEvent && !Skipped(a.reasonCode)
  }

  /** The verdicts that count, in list order. */
  function Counting(list: seq<AuditRecord>): seq<Entry> {
    if list == [] then []
    else
      var last := list[|list| - 1];
      Counting(list[..|list| - 1]) + if Counts(last) then [Entry(last.verdict, last.at)] else []
  }

  predicate NewestFirst(s: seq<Entry>) {
    forall i, j :: 0 <= i < j < |s| ==> s[i].at >= s[j].at
  }

  function Tally(s: seq<Entry>, verdict: string): nat {
    if s == [] then 0 else Tally(s[..|s| - 1], verdict) + if s[|s| - 1].verdict == verdict then 1 else 0
  }

  function Window(s: seq<Entry>, count: nat): seq<Entry> {
    if |s| > count then s[..count] else s
  }

  function Accuracy(s: seq<Entry>): (acc: real)
    requires s != []
    ensures 0.0 <= acc <= 1.0
  {
    TallyBound(s);
    Ratio(Tally(s, CORRECT), Tally(s, PARTIAL), |s|);
    (Tally(s, CORRECT) as real + 0.5 * Tally(s, PARTIAL) as real) / |s| as real
  }

  lemma {:induction false} TallyBound(s: seq<Entry>)
    ensures Tally(s, CORRECT) + Tally(s, PARTIAL) <= |s|
  {
    if s != [] { TallyBound(s[..|s| - 1]); }
  }

  lemma Ratio(correct: nat, partial: nat, total: nat)
    requires correct + partial <= total && total > 0
    ensures 0.0 <= (correct as real + 0.5 * partial as real) / total as real <= 1.0
  {
    var x, t := correct as real + 0.5 * partial as real, total as real;
    assert 0.0 <= x <= t;
    assert x / t * t == x;
  }

  /** Insert in front of the first older entry. */
  method Insert(s: seq<Entry>, e: Entry) returns (r: seq<Entry>, i: nat)
    requires NewestFirst(s)
    ensures NewestFirst(r) && multiset(r) == multiset(s) + multiset{e}
    ensures i <= |s| && r == s[..i] + [e] + s[i..]
  {
    i := 0;
    while i < |s| && s[i].at >= e.at
      invariant 0 <= i <= |s|
      invariant forall j :: 0 <= j < i ==> s[j].at >= e.at
    {
      i := i + 1;
    }
    r := s[..i] + [e] + s[i..];
    InsertedInOrder(s, e, i);
    InsertedOnce(s, e, i);
  }

  lemma InsertedInOrder(s: seq<Entry>, e: Entry, i: nat)
    requires NewestFirst(s) && i <= |s| && (forall j :: 0 <= j < i ==> s[j].at >= e.at) && (i < |s| ==> s[i].at < e.at)
    ensures NewestFirst(s[..i] + [e] + s[i..])
  {
    var r := s[..i] + [e] + s[i..];
    forall a, b | 0 <= a < b < |r| ensures r[a].at >= r[b].at {
      assert i < |s| && b > i ==> s[i].at >= s[b - 1].at;
    }
  }

  lemma InsertedOnce(s: seq<Entry>, e: Entry, i: nat)
    requires i <= |s|
    ensures multiset(s[..i] + [e] + s[i..]) == multiset(s) + multiset{e}
  {
    assert s == s[..i] + s[i..];
  }

  /** Some order in which no entry comes before a newer one; ties may fall either way. */
  method SortNewestFirst(s: seq<Entry>) returns (r: seq<Entry>, ghost from: seq<nat>)
    ensures NewestFirst(r) && multiset(r) == multiset(s) && Rearranged(s, r, from)
  {
    r, from := [], [];
    assert Rearranged(s[..0], r, from) && NewestFirst(r);
    hide Rearranged, NewestFirst;
    for i := 0 to |s|
      invariant NewestFirst(r) && multiset(r) == multiset(s[..i]) && Rearranged(s[..i], r, from)
    {
      ghost var was, had := r, from;
      assert |was| == |s[..i]| by { SameSize(was, s[..i]); }
      var at;
      r, at := Insert(r, s[i]);
      from := from[..at] + [|s[..i]|] + from[at..];
      InsertedAt(s[..i], was, had, s[i], at);
      assert s[..i + 1] == s[..i] + [s[i]];
    }
    assert s[..|s|] == s;
  }

  /** `r` is `s` rearranged: its k-th entry is entry from[k] of `s`, and every entry is used once. */
  ghost predicate Rearranged(s: seq<Entry>, r: seq<Entry>, from: seq<nat>) {
    && |r| == |s| == |from|
    && (forall k :: 0 <= k < |r| ==> from[k] < |s| && r[k] == s[from[k]])
    && (forall k, m :: 0 <= k < m < |from| ==> from[k] != from[m])
    && (forall j :: 0 <= j < |s| ==> Has(from, j))
  }

  ghost predicate Has(from: seq<nat>, j: int) {
    exists k :: 0 <= k < |from| && from[k] == j
  }

  lemma InsertedAt(s: seq<Entry>, r: seq<Entry>, from: seq<nat>, e: Entry, at: nat)
    requires Rearranged(s, r, from) && at <= |r|
    ensures Rearranged(s + [e], r[..at] + [e] + r[at..], from[..at] + [|s|] + from[at..])
  {
    var from' := from[..at] + [|s|] + from[at..];
    forall j | 0 <= j < |s + [e]| ensures Has(from', j) {
      if j == |s| {
        assert from'[at] == j;
      } else {
        assert Has(from, j);
        var k :| 0 <= k < |from| && from[k] == j;
        assert from'[if k < at then k else k + 1] == j;
      }
    }
  }

  /** The verdicts of the list that count, from new to old; ties may fall either way. */
  predicate Sorted(list: seq<AuditRecord>, order: seq<Entry>) {
    NewestFirst(order) && multiset(order) == multiset(Counting(list))
  }

  /** The accuracy of the newest `count` verdicts that count, None if there are none, and their number. */
  ghost predicate Rolling(list: seq<AuditRecord>, count: nat, acc: Option<real>, total: nat) {
    exists order :: && Sorted(list, order) && total == |Window(order, count)|
                    && acc == if total == 0 then None else Some(Accuracy(Window(order, count)))
  }

  // ---------- what the result means, record by record ----------

  /** A verdict record whose reason speaks about the diagnosis. */
  predicate Diagnoses(a: AuditRecord) {
    a.verdictEvent && a.reasonCode !in ["bad_timing", "scope_too_broad", "precautionary", "policy_block"]
  }

  /** Positions of at most `count` diagnosing records, all of them or none newer left out. */
  ghost predicate Newest(list: seq<AuditRecord>, count: nat, pick: seq<nat>) {
    && |pick| <= count
    && (forall i :: 0 <= i < |pick| ==> pick[i] < |list| && Diagnoses(list[pick[i]]))
    && (forall i, j :: 0 <= i < j < |pick| ==> pick[i] != pick[j])
    && (forall k :: 0 <= k < |list| && Diagnoses(list[k]) && k !in pick ==>
          |pick| == count && forall i :: 0 <= i < |pick| ==> list[k].at <= list[pick[i]].at)
  }

  /** One point for a correct verdict, half a point for a partial one. */
  function Points(verdicts: seq<string>): real {
    if verdicts == [] then 0.0
    else
      Points(verdicts[..|verdicts| - 1]) + Worth(verdicts[|verdicts| - 1])
  }

  function Worth(verdict: string): real {
    if verdict == "correct" then 1.0 else if verdict == "partial" then 0.5 else 0.0
  }

  function Verdicts(list: seq<AuditRecord>, pick: seq<nat>): seq<string>
    requires forall i :: 0 <= i < |pick| ==> pick[i] < |list|
  {
    seq(|pick|, i requires 0 <= i < |pick| => list[pick[i]].verdict)
  }

  /** The average number of points over the newest diagnosing records, None if there are none. */
  ghost predicate Averages(list: seq<AuditRecord>, count: nat, acc: Option<real>, total: nat) {
    exists pick :: Newest(list, count, pick) && Scores(list, pick, acc, total)
  }

  ghost predicate Scores(list: seq<AuditRecord>, pick: seq<nat>, acc: Option<real>, total: nat)
    requires forall i :: 0 <= i < |pick| ==> pick[i] < |list|
  {
    && total == |pick|
    && acc == if total == 0 then None else Some(Points(Verdicts(list, pick)) / total as real)
  }

  function Of(s: seq<Entry>): (r: seq<string>)
    ensures |r| == |s|
  {
    seq(|s|, i requires 0 <= i < |s| => s[i].verdict)
  }

  lemma {:induction false} TallyPoints(s: seq<Entry>)
    ensures Points(Of(s)) == Tally(s, CORRECT) as real + 0.5 * Tally(s, PARTIAL) as real
  {
    if s != [] {
      TallyPoints(s[..|s| - 1]);
      assert Of(s)[..|s| - 1] == Of(s[..|s| - 1]);
    }
  }

  lemma AccuracyPoints(s: seq<Entry>)
    requires s != []
    ensures Accuracy(s) == Points(Of(s)) / |s| as real
  {
    TallyPoints(s);
  }

  /** Where the counting verdicts stand in the list. */
  ghost function Places(list: seq<AuditRecord>): seq<nat> {
    if list == [] then []
    else Places(list[..|list| - 1]) + if Counts(list[|list| - 1]) then [|list| - 1] else []
  }

  lemma {:induction false} PlacesFit(list: seq<AuditRecord>)
    ensures |Places(list)| == |Counting(list)|
    ensures forall k :: 0 <= k < |Places(list)| ==> Places(list)[k] < |list| && At(list, Places(list)[k], Counting(list)[k])
    ensures forall k, m :: 0 <= k < m < |Places(list)| ==> Places(list)[k] < Places(list)[m]
  {
    hide Counts;
    if list != [] { PlacesFit(list[..|list| - 1]); }
  }

  predicate At(list: seq<AuditRecord>, k: nat, e: Entry)
    requires k < |list|
  {
    Counts(list[k]) && e == Entry(list[k].verdict, list[k].at)
  }

  lemma {:induction false} PlacesAll(list: seq<AuditRecord>, k: nat)
    requires k < |list| && Counts(list[k])
    ensures k in Places(list)
  {
    var n := |list| - 1;
    if k < n { PlacesAll(list[..n], k); } else { assert Places(list)[|Places(list)| - 1] == n; }
  }

  /** Where the first `n` entries of a sorted list stood. */
  ghost function Picked(list: seq<AuditRecord>, from: seq<nat>, n: nat): seq<nat>
    requires n <= |from| && forall i :: 0 <= i < |from| ==> from[i] < |Places(list)|
  {
    seq(n, i requires 0 <= i < n => Places(list)[from[i]])
  }

  lemma CountsDiagnoses(a: AuditRecord)
    ensures Counts(a) <==> Diagnoses(a)
  {
  }

  lemma PickedApart(list: seq<AuditRecord>, order: seq<Entry>, from: seq<nat>, i: nat, j: nat)
    requires Rearranged(Counting(list), order, from) && i < j < |from|
    ensures from[i] < |Places(list)| && from[j] < |Places(list)| && Places(list)[from[i]] != Places(list)[from[j]]
  {
    hide Counting, Places;
    PlacesFit(list);
    var r := Places(list);
    if from[i] < from[j] { assert r[from[i]] < r[from[j]]; } else { assert r[from[j]] < r[from[i]]; }
  }

  /** Where a counting record ended up. */
  lemma PlaceOf(list: seq<AuditRecord>, order: seq<Entry>, from: seq<nat>, k: nat) returns (m: nat)
    requires Rearranged(Counting(list), order, from) && k < |list| && Counts(list[k])
    ensures m < |from| && from[m] < |Places(list)| && Places(list)[from[m]] == k && order[m].at == list[k].at
  {
    hide Counting, Counts, Places;
    PlacesFit(list);
    PlacesAll(list, k);
    var j :| 0 <= j < |Places(list)| && Places(list)[j] == k;
    assert Has(from, j);
    m :| 0 <= m < |from| && from[m] == j;
  }

  /** A record left out is no newer than any that was picked, and then the window is full. */
  lemma LeftOut(list: seq<AuditRecord>, order: seq<Entry>, from: seq<nat>, n: nat, k: nat)
    requires NewestFirst(order) && Rearranged(Counting(list), order, from) && n <= |from| && |Places(list)| == |from|
    requires k < |list| && Counts(list[k]) && k !in Picked(list, from, n)
    ensures n < |from|
    ensures forall i :: 0 <= i < n ==> Picked(list, from, n)[i] < |list| && list[k].at <= list[Picked(list, from, n)[i]].at
  {
    hide Counting, Counts, Places;
    PlacesFit(list);
    assert forall j :: 0 <= j < n ==> Picked(list, from, n)[j] == Places(list)[from[j]];
    var m := PlaceOf(list, order, from, k);
  }

  /** What was picked are counting records, namely those of the first `n` entries. */
  lemma PickedCount(list: seq<AuditRecord>, order: seq<Entry>, from: seq<nat>, n: nat)
    requires Rearranged(Counting(list), order, from) && n <= |from| && |Places(list)| == |from|
    ensures var pick := Picked(list, from, n);
            && (forall i :: 0 <= i < n ==> pick[i] < |list| && Diagnoses(list[pick[i]]))
            && Verdicts(list, pick) == Of(order[..n])
  {
    hide Counting, Diagnoses, Counts, Places;
    PlacesFit(list);
    var pick := Picked(list, from, n);
    forall i | 0 <= i < n
      ensures pick[i] < |list| && Diagnoses(list[pick[i]]) && order[i].verdict == list[pick[i]].verdict
    {
      CountsDiagnoses(list[pick[i]]);
    }
  }

  /** The window of a sorted list picks the newest records. */
  lemma WindowPicks(list: seq<AuditRecord>, order: seq<Entry>, from: seq<nat>, count: nat, n: nat)
    requires NewestFirst(order) && Rearranged(Counting(list), order, from) && |Places(list)| == |from|
    requires n == if |from| > count then count else |from|
    ensures Newest(list, count, Picked(list, from, n))
  {
    hide Counting, Diagnoses, Counts, NewestFirst, Places, Verdicts, Of;
    PickedCount(list, order, from, n);
    var pick := Picked(list, from, n);
    forall i, j | 0 <= i < j < n ensures pick[i] != pick[j] {
      PickedApart(list, order, from, i, j);
    }
    forall k | 0 <= k < |list| && Diagnoses(list[k]) && k !in pick
      ensures n == count && forall i :: 0 <= i < n ==> list[k].at <= list[pick[i]].at
    {
      CountsDiagnoses(list[k]);
      LeftOut(list, order, from, n, k);
    }
  }

  /** A window of one kind of verdict has that kind's worth as its accuracy. */
  lemma OneKind(list: seq<AuditRecord>, count: nat, acc: Option<real>, total: nat, verdict: string)
    requires Averages(list, count, acc, total) && total > 0
    requires forall k :: 0 <= k < |list| && Diagnoses(list[k]) ==> list[k].verdict == verdict
    ensures acc == Some(Worth(verdict))
  {
    hide Diagnoses, Points, Worth;
    var pick :| Newest(list, count, pick) && Scores(list, pick, acc, total);
    var vs := Verdicts(list, pick);
    assert |vs| == total && acc == Some(Points(vs) / total as real);
    SamePoints(vs, verdict);
    Average(Points(vs), Worth(verdict), total as real);
  }

  lemma Average(points: real, worth: real, t: real)
    requires t != 0.0 && points == worth * t
    ensures points / t == worth
  {
  }

  lemma {:induction false} SamePoints(vs: seq<string>, verdict: string)
    requires forall i :: 0 <= i < |vs| ==> vs[i] == verdict
    ensures Points(vs) == Worth(verdict) * |vs| as real
  {
    hide Worth;
    if vs != [] { SamePoints(vs[..|vs| - 1], verdict); }
  }

  /** computeRollingAccuracy. */
  method ComputeRollingAccuracy(list: seq<AuditRecord>, count: nat) returns (acc: Option<real>, total: nat)
    ensures Averages(list, count, acc, total)
    ensures Rolling(list, count, acc, total)
    ensures total == if |Counting(list)| < count then |Counting(list)| else count
    ensures (acc.Some? <==> total > 0) && (acc.Some? ==> 0.0 <= acc.value <= 1.0)
  {
    var entries := [];
    for i := 0 to |list|
      invariant entries == Counting(list[..i])
    {
      assert list[..i + 1][..i] == list[..i];
      if !list[i].verdictEvent || Skipped(list[i].reasonCode) { continue; }
      entries := entries + [Entry(list[i].verdict, list[i].at)];
    }
    assert list[..|list|] == list;
    ghost var from;
    entries, from := SortNewestFirst(entries);
    ghost var order := entries;
    assert Sorted(list, order);
    SameSize(order, Counting(list));
    PlacesFit(list);
    PickedCount(list, order, from, |Window(order, count)|);
    WindowPicks(list, order, from, count, |Window(order, count)|);
    ghost var pick := Picked(list, from, |Window(order, count)|);
    if |entries| > count { entries := entries[..count]; }
    assert entries == Window(order, count) == order[..|entries|];
    if |entries| == 0 {
      acc, total := None, 0;
    } else {
      acc, total := TallyWindow(entries);
      AccuracyPoints(entries);
    }
    assert Scores(list, pick, acc, total);
  }

  /** The tally loop. */
  method TallyWindow(entries: seq<Entry>) returns (acc: Option<real>, total: nat)
    requires entries != []
    ensures total == |entries| && acc == Some(Accuracy(entries))
  {
    var correct, partial := 0, 0;
    total := 0;
    for i := 0 to |entries|
      invariant total == i && correct == Tally(entries[..i], CORRECT) && partial == Tally(entries[..i], PARTIAL)
    {
      assert entries[..i + 1][..i] == entries[..i];
      total := total + 1;
      if entries[i].verdict == CORRECT {
        correct := correct + 1;
      } else if entries[i].verdict == PARTIAL {
        partial := partial + 1;
      }
    }
    assert entries[..|entries|] == entries;
    acc := Some((correct as real + 0.5 * partial as real) / total as real);
  }

  // ---------- order and old records do not matter ----------

  predicate DistinctTimes(s: seq<Entry>) {
    forall i, j :: 0 <= i < j < |s| ==> s[i].at != s[j].at
  }

  /** The newest of a sorted list is its first, and nothing else is. */
  lemma NewestIsFirst(s: seq<Entry>, x: Entry)
    requires NewestFirst(s) && DistinctTimes(s) && s != [] && x in s && x.at >= s[0].at
    ensures x == s[0] && x !in s[1..] && NewestFirst(s[1..]) && DistinctTimes(s[1..])
  {
    var i :| 0 <= i < |s| && s[i] == x;
  }

  lemma SameSize(a: seq<Entry>, b: seq<Entry>)
    requires multiset(a) == multiset(b)
    ensures |a| == |b|
  {
    assert |multiset(a)| == |a| && |multiset(b)| == |b|;
  }

  lemma SameFirst(a: seq<Entry>, b: seq<Entry>)
    requires NewestFirst(a) && NewestFirst(b) && DistinctTimes(a) && DistinctTimes(b) && multiset(a) == multiset(b)
    requires a != [] && b != []
    ensures a[0] == b[0] && NewestFirst(a[1..]) && NewestFirst(b[1..]) && DistinctTimes(a[1..]) && DistinctTimes(b[1..])
  {
    assert a[0] in multiset(b) && b[0] in multiset(a);
    if a[0].at >= b[0].at { NewestIsFirst(b, a[0]); } else { NewestIsFirst(a, b[0]); }
    NewestIsFirst(a, a[0]);
    NewestIsFirst(b, b[0]);
  }

  lemma TailOf(s: seq<Entry>)
    requires s != []
    ensures s == [s[0]] + s[1..] && multiset(s[1..]) == multiset(s) - multiset{s[0]}
  {
    assert s == [s[0]] + s[1..];
  }

  /** With distinct times there is one order from new to old. */
  lemma {:induction false} OneOrder(a: seq<Entry>, b: seq<Entry>)
    requires NewestFirst(a) && NewestFirst(b) && DistinctTimes(a) && DistinctTimes(b) && multiset(a) == multiset(b)
    ensures a == b
  {
    SameSize(a, b);
    if a != [] {
      SameFirst(a, b);
      hide NewestFirst, DistinctTimes;
      TailOf(a);
      TailOf(b);
      OneOrder(a[1..], b[1..]);
    }
  }

  lemma {:induction false} SameTimes(a: seq<Entry>, b: seq<Entry>)
    requires DistinctTimes(a) && multiset(b) <= multiset(a)
    ensures DistinctTimes(b)
  {
    forall i, j | 0 <= i < j < |b| ensures b[i].at != b[j].at {
      if b[i].at == b[j].at {
        Twice(b, i, j);
        assert b[i] in multiset(a) && b[j] in multiset(a);
        var k :| 0 <= k < |a| && a[k] == b[i];
        var l :| 0 <= l < |a| && a[l] == b[j];
        if b[i] == b[j] { Once(a, k); }
      }
    }
  }

  lemma Twice(s: seq<Entry>, i: nat, j: nat)
    requires i < j < |s|
    ensures s[i] == s[j] ==> multiset(s)[s[i]] >= 2
  {
    assert s == s[..j] + [s[j]] + s[j + 1..];
    assert s[i] in s[..j];
  }

  lemma Once(s: seq<Entry>, k: nat)
    requires k < |s| && DistinctTimes(s)
    ensures multiset(s)[s[k]] == 1
  {
    assert s == s[..k] + [s[k]] + s[k + 1..];
    assert s[k] !in s[..k] && s[k] !in s[k + 1..];
  }

  lemma {:induction false} CountingSplit(a: seq<AuditRecord>, b: seq<AuditRecord>)
    ensures Counting(a + b) == Counting(a) + Counting(b)
  {
    if b == [] {
      assert a + b == a;
    } else {
      var last := |b| - 1;
      assert (a + b)[..|a + b| - 1] == a + b[..last];
      CountingSplit(a, b[..last]);
    }
  }

  function Drop(b: seq<AuditRecord>, j: nat): seq<AuditRecord>
    requires j < |b|
  {
    b[..j] + b[j + 1..]
  }

  lemma Parted(b: seq<AuditRecord>, j: nat)
    requires j < |b|
    ensures b == b[..j] + ([b[j]] + b[j + 1..])
  {
  }

  lemma WithoutOne(b: seq<AuditRecord>, j: nat)
    requires j < |b|
    ensures multiset(b) == multiset(Drop(b, j)) + multiset{b[j]}
    ensures multiset(Counting(b)) == multiset(Counting(Drop(b, j))) + multiset(Counting([b[j]]))
  {
    hide Counting;
    var front, back, x := b[..j], b[j + 1..], [b[j]];
    Parted(b, j);
    CountingSplit(front, back);
    CountingSplit(front, x + back);
    CountingSplit(x, back);
    Regroup(front, x, back);
    Regroup(Counting(front), Counting(x), Counting(back));
  }

  lemma Regroup<T>(a: seq<T>, b: seq<T>, c: seq<T>)
    ensures multiset(a + (b + c)) == multiset(a + c) + multiset(b)
  {
  }

  lemma Cancel<T>(a: multiset<T>, b: multiset<T>, c: multiset<T>)
    ensures a + c <= b + c <==> a <= b
  {
    if a + c <= b + c {
      forall x ensures a[x] <= b[x] {
        assert (a + c)[x] <= (b + c)[x];
      }
    }
  }

  /** Fewer records, in whatever order, fewer verdicts that count. */
  lemma {:induction false} CountingMono(a: seq<AuditRecord>, b: seq<AuditRecord>)
    requires multiset(a) <= multiset(b)
    ensures multiset(Counting(a)) <= multiset(Counting(b))
    decreases |a|
  {
    if a != [] {
      var j := Find(a[0], a, b);
      WithoutOne(a, 0);
      WithoutOne(b, j);
      hide Counting, Drop;
      Cancel(multiset(Drop(a, 0)), multiset(Drop(b, j)), multiset{a[0]});
      DropShrinks(a, 0);
      CountingMono(Drop(a, 0), Drop(b, j));
      Cancel(multiset(Counting(Drop(a, 0))), multiset(Counting(Drop(b, j))), multiset(Counting([a[0]])));
    }
  }

  lemma DropShrinks(b: seq<AuditRecord>, j: nat)
    requires j < |b|
    ensures |Drop(b, j)| < |b|
  {
  }

  lemma Find(x: AuditRecord, a: seq<AuditRecord>, b: seq<AuditRecord>) returns (j: nat)
    requires x in a && multiset(a) <= multiset(b)
    ensures j < |b| && b[j] == x
  {
    assert x in multiset(a) && x in multiset(b);
    j :| 0 <= j < |b| && b[j] == x;
  }

  /** The rolling accuracy does not depend on the order the records were listed in. */
  lemma ListOrderIrrelevant(list: seq<AuditRecord>, list': seq<AuditRecord>, count: nat, acc: Option<real>, total: nat,
                            acc': Option<real>, total': nat)
    requires multiset(list) == multiset(list') && DistinctTimes(Counting(list))
    requires Rolling(list, count, acc, total) && Rolling(list', count, acc', total')
    ensures acc == acc' && total == total'
  {
    var order :| && Sorted(list, order) && total == |Window(order, count)|
                 && acc == if total == 0 then None else Some(Accuracy(Window(order, count)));
    var order' :| && Sorted(list', order') && total' == |Window(order', count)|
                  && acc' == if total' == 0 then None else Some(Accuracy(Window(order', count)));
    CountingMono(list, list');
    CountingMono(list', list);
    hide Accuracy, Counting;
    SameTimes(Counting(list), order);
    SameTimes(Counting(list), order');
    OneOrder(order, order');
  }

  predicate Within(a: seq<Entry>, b: seq<Entry>) {
    forall x :: x in a ==> x in b
  }

  lemma WithinNothing(a: seq<Entry>)
    requires Within(a, [])
    ensures a == []
  {
    if a != [] { FirstIn(a); }
  }

  lemma FirstIn(s: seq<Entry>)
    requires s != []
    ensures s[0] in s
  {
  }

  predicate Ordered(s: seq<Entry>) {
    NewestFirst(s) && DistinctTimes(s)
  }

  /** Deleting any records whose verdicts are not in the window leaves the accuracy and the total alone. */
  lemma OldRecordsIrrelevant(list: seq<AuditRecord>, list': seq<AuditRecord>, order: seq<Entry>, count: nat,
                             acc: Option<real>, total: nat, acc': Option<real>, total': nat)
    requires DistinctTimes(Counting(list)) && Sorted(list, order)
    requires multiset(list') <= multiset(list) && Within(Window(order, count), Counting(list'))
    requires Rolling(list, count, acc, total) && Rolling(list', count, acc', total')
    ensures acc == acc' && total == total'
  {
    var o :| && Sorted(list, o) && total == |Window(o, count)|
             && acc == if total == 0 then None else Some(Accuracy(Window(o, count)));
    var kept :| && Sorted(list', kept) && total' == |Window(kept, count)|
                && acc' == if total' == 0 then None else Some(Accuracy(Window(kept, count)));
    CountingMono(list', list);
    hide Accuracy, Counting;
    SameTimes(Counting(list), order);
    SameTimes(Counting(list), o);
    SameTimes(Counting(list), kept);
    OneOrder(order, o);
    Among(kept, Counting(list'));
    Among(Counting(list'), kept);
    Among(kept, order);
    WindowKept(order, kept, count);
  }

  lemma Among(a: seq<Entry>, b: seq<Entry>)
    requires multiset(a) <= multiset(b)
    ensures Within(a, b)
  {
    forall x | x in a ensures x in b {
      assert x in multiset(a) && x in multiset(b);
    }
  }

  lemma {:induction false} WindowKept(order: seq<Entry>, kept: seq<Entry>, count: nat)
    requires Ordered(order) && Ordered(kept) && Within(kept, order) && Within(Window(order, count), kept)
    ensures Window(kept, count) == Window(order, count)
  {
    if order == [] {
      WithinNothing(kept);
    } else if count > 0 {
      FirstKept(order, kept, count);
      hide Ordered, Within, Window;
      WindowKept(order[1..], kept[1..], count - 1);
      WindowSplit(order, count);
      WindowSplit(kept, count);
    }
  }

  lemma FirstKept(order: seq<Entry>, kept: seq<Entry>, count: nat)
    requires Ordered(order) && Ordered(kept) && Within(kept, order) && Within(Window(order, count), kept)
    requires order != [] && count > 0
    ensures kept != [] && kept[0] == order[0] && Ordered(order[1..]) && Ordered(kept[1..])
    ensures Within(kept[1..], order[1..]) && Within(Window(order[1..], count - 1), kept[1..])
  {
    WindowSplit(order, count);
    assert order[0] in Window(order, count);
    assert kept[0] in order;
    if kept[0].at >= order[0].at { NewestIsFirst(order, kept[0]); } else { NewestIsFirst(kept, order[0]); }
    NewestIsFirst(order, order[0]);
    NewestIsFirst(kept, kept[0]);
    hide NewestFirst, DistinctTimes, Window;
    TailHas(order);
    TailHas(kept);
  }

  lemma TailHas(s: seq<Entry>)
    requires s != [] && s[0] !in s[1..]
    ensures forall x :: x in s[1..] <==> x in s && x != s[0]
  {
    assert s == [s[0]] + s[1..];
  }

  lemma WindowSplit(s: seq<Entry>, count: nat)
    requires s != [] && count > 0
    ensures Window(s, count) == [s[0]] + Window(s[1..], count - 1)
    ensures forall x :: x in Window(s[1..], count - 1) ==> x in s[1..]
  {
  }
}

/** The trust ladder: which level an agent's record earns, and the guard that keeps demotions from
    following promotions too closely. Accuracies are reals. */
module TrustLadder {
  import opened Api
  import opened TrustGate

  datatype Band = Band(min: Option<real>, buffer: Option<real>)

  datatype Level = Level(name: string, accuracy: Option<Band>, minExecutions: Option<int>)

  /** DemotionPolicy.GracePeriod: absent, not a duration, or a duration. */
  datatype Grace = NoGrace | Unparseable | Lasting(d: int)

  /** A graduation policy that exists; it may list no levels. */
  datatype Ladder = Ladder(levels: seq<Level>, dropThreshold: real, grace: Grace)

  /** What one evaluation reads: the clock, rolling accuracies and executions. */
  datatype Reading = Reading(at: int, recent: real, demotion: real, executions: int)

  datatype Standing = Standing(level: string, promotedAt: Option<int>, demotedAt: Option<int>)

  predicate Meets(l: Level, accuracy: real, executions: int) {
    && (l.accuracy.Some? && l.accuracy.value.min.Some? ==> accuracy >= l.accuracy.value.min.value)
    && (l.minExecutions.Some? ==> executions >= l.minExecutions.value)
  }

  /** Some minimum that the level sets is missed. */
  predicate Misses(l: Level, accuracy: real, executions: int) {
    || (l.accuracy.Some? && l.accuracy.value.min.Some? && accuracy < l.accuracy.value.min.value)
    || (l.minExecutions.Some? && executions < l.minExecutions.value)
  }

  /** The level is the last listed one that misses none of its minimums, or Observer. */
  predicate Earned(levels: seq<Level>, accuracy: real, executions: int, name: string) {
    || (name == "Observer" && forall i :: 0 <= i < |levels| ==> Misses(levels[i], accuracy, executions))
    || exists i :: && 0 <= i < |levels| && !Misses(levels[i], accuracy, executions) && levels[i].name == name
                   && forall j :: i < j < |levels| ==> Misses(levels[j], accuracy, executions)
  }

  /** resolveTrustLevel. */
  method ResolveTrustLevel(levels: seq<Level>, accuracy: real, executions: int) returns (name: string)
    ensures name == Resolve(levels, accuracy, executions)
    ensures Earned(levels, accuracy, executions, name)
  {
    var i := |levels|;
    assert levels[..i] == levels;
    while i > 0
      invariant 0 <= i <= |levels|
      invariant forall j :: i <= j < |levels| ==> Misses(levels[j], accuracy, executions)
      invariant Resolve(levels, accuracy, executions) == Resolve(levels[..i], accuracy, executions)
    {
      assert levels[..i][..i - 1] == levels[..i - 1] && levels[..i][i - 1] == levels[i - 1];
      i := i - 1;
      if Meets(levels[i], accuracy, executions) { return levels[i].name; }
    }
    name := OBSERVER;
  }

  function Resolve(levels: seq<Level>, accuracy: real, executions: int): string {
    if levels == [] then OBSERVER
    else if Meets(levels[|levels| - 1], accuracy, executions) then levels[|levels| - 1].name
    else Resolve(levels[..|levels| - 1], accuracy, executions)
  }

  /** With the levels listed in ascending rank the result ranks highest among those that are met. */
  lemma {:induction false} ResolveIsHighest(levels: seq<Level>, accuracy: real, executions: int, k: nat)
    requires forall i, j :: 0 <= i < j < |levels| ==> Rank(levels[i].name) <= Rank(levels[j].name)
    requires k < |levels| && Meets(levels[k], accuracy, executions)
    ensures Rank(levels[k].name) <= Rank(Resolve(levels, accuracy, executions))
  {
    var last := |levels| - 1;
    hide Rank;
    if !Meets(levels[last], accuracy, executions) {
      ResolveIsHighest(levels[..last], accuracy, executions, k);
    }
  }

  /** In any other order it need not: a met level can be listed before a lower one. */
  lemma ResolveOrderMatters()
    ensures Resolve([Level("Trusted", None, None), Level("Advisor", None, None)], 1.0, 0) == "Advisor"
    ensures Rank("Trusted") > Rank("Advisor")
  {
    assert Meets(Level("Advisor", None, None), 1.0, 0);
  }

  predicate LastMet(levels: seq<Level>, accuracy: real, executions: int, j: int) {
    && 0 <= j < |levels| && Meets(levels[j], accuracy, executions)
    && forall m :: j < m < |levels| ==> !Meets(levels[m], accuracy, executions)
  }

  lemma {:induction false} LastMetResolved(levels: seq<Level>, accuracy: real, executions: int, k: nat) returns (j: nat)
    requires k < |levels| && Meets(levels[k], accuracy, executions)
    ensures k <= j && LastMet(levels, accuracy, executions, j)
    ensures Resolve(levels, accuracy, executions) == levels[j].name
  {
    var last := |levels| - 1;
    if Meets(levels[last], accuracy, executions) {
      j := last;
    } else {
      j := LastMetResolved(levels[..last], accuracy, executions, k);
      assert forall m :: j < m < last ==> levels[m] == levels[..last][m];
    }
  }

  /** No met level outranks `name`. */
  predicate Highest(levels: seq<Level>, accuracy: real, executions: int, name: string) {
    forall k :: 0 <= k < |levels| && Meets(levels[k], accuracy, executions) ==> Rank(levels[k].name) <= Rank(name)
  }

  /** The least accuracy and executions that meet a level; neither can be negative. */
  function NeedAccuracy(l: Level): real {
    if l.accuracy.Some? && l.accuracy.value.min.Some? && l.accuracy.value.min.value > 0.0 then l.accuracy.value.min.value else 0.0
  }

  function NeedExecutions(l: Level): int {
    if l.minExecutions.Some? && l.minExecutions.value > 0 then l.minExecutions.value else 0
  }

  /** What an agent's record can show: accuracy is a share, executions are counted. */
  predicate Readable(accuracy: real, executions: int) {
    0.0 <= accuracy <= 1.0 && 0 <= executions
  }

  lemma MeetsNeeds(l: Level, accuracy: real, executions: int)
    requires Readable(accuracy, executions)
    ensures Meets(l, accuracy, executions) <==> NeedAccuracy(l) <= accuracy && NeedExecutions(l) <= executions
  {
  }

  /** Level `l` asks no more than `a` and `b` together. */
  predicate AsksNoMore(l: Level, a: Level, b: Level) {
    && (NeedAccuracy(l) <= NeedAccuracy(a) || NeedAccuracy(l) <= NeedAccuracy(b))
    && (NeedExecutions(l) <= NeedExecutions(a) || NeedExecutions(l) <= NeedExecutions(b))
  }

  /** Some agent can meet the level. */
  predicate Attainable(l: Level) {
    NeedAccuracy(l) <= 1.0
  }

  /** A level listed before a lower one does no harm if some level after both asks no more than they do. */
  predicate Shielded(levels: seq<Level>, i: int, j: int)
    requires 0 <= i < j < |levels|
  {
    exists m :: j < m < |levels| && AsksNoMore(levels[m], levels[i], levels[j])
  }

  /** Every pair listed in descending rank, unless out of reach, is shielded. */
  predicate WellListed(levels: seq<Level>) {
    forall i, j :: 0 <= i < j < |levels| && Rank(levels[i].name) > Rank(levels[j].name)
                   && Attainable(levels[i]) && Attainable(levels[j]) ==>
      Shielded(levels, i, j)
  }

  /** The result is the highest level met. */
  predicate ResolvesHighest(levels: seq<Level>, accuracy: real, executions: int) {
    Highest(levels, accuracy, executions, Resolve(levels, accuracy, executions))
  }

  lemma WellListedSuffices(levels: seq<Level>, accuracy: real, executions: int, k: nat)
    requires WellListed(levels) && Readable(accuracy, executions) && k < |levels| && Meets(levels[k], accuracy, executions)
    ensures Rank(levels[k].name) <= Rank(Resolve(levels, accuracy, executions))
  {
    hide Rank, Meets, Resolve, NeedAccuracy, NeedExecutions;
    var j := LastMetResolved(levels, accuracy, executions, k);
    MeetsNeeds(levels[k], accuracy, executions);
    MeetsNeeds(levels[j], accuracy, executions);
    if Rank(levels[k].name) > Rank(levels[j].name) {
      assert Shielded(levels, k, j);
      var m :| j < m < |levels| && AsksNoMore(levels[m], levels[k], levels[j]);
      MeetsNeeds(levels[m], accuracy, executions);
    }
  }

  /** The record that just meets both levels is the one to look at. */
  lemma HighestShields(levels: seq<Level>, i: nat, j: nat)
    requires i < j < |levels| && Rank(levels[i].name) > Rank(levels[j].name)
    requires Attainable(levels[i]) && Attainable(levels[j])
    requires forall accuracy, executions :: Readable(accuracy, executions) ==> ResolvesHighest(levels, accuracy, executions)
    ensures Shielded(levels, i, j)
  {
    var a, b := levels[i], levels[j];
    var accuracy := if NeedAccuracy(a) < NeedAccuracy(b) then NeedAccuracy(b) else NeedAccuracy(a);
    var executions := Max(NeedExecutions(a), NeedExecutions(b));
    assert Readable(accuracy, executions);
    MeetsNeeds(a, accuracy, executions);
    MeetsNeeds(b, accuracy, executions);
    hide Rank, Meets, Resolve;
    var m := LastMetResolved(levels, accuracy, executions, j);
    assert ResolvesHighest(levels, accuracy, executions);
    MeetsNeeds(levels[m], accuracy, executions);
  }

  /** A policy resolves every agent to the highest level it meets exactly if it is well listed: each level
      listed before a lower one is followed, after both, by one that asks no more than the two together. */
  lemma ResolveHighestExactly(levels: seq<Level>)
    ensures (forall accuracy, executions :: Readable(accuracy, executions) ==> ResolvesHighest(levels, accuracy, executions))
       <==> WellListed(levels)
  {
    if WellListed(levels) {
      hide WellListed, Meets, Rank, Resolve;
      forall accuracy, executions, k | Readable(accuracy, executions) && 0 <= k < |levels| && Meets(levels[k], accuracy, executions)
        ensures Rank(levels[k].name) <= Rank(Resolve(levels, accuracy, executions))
      {
        WellListedSuffices(levels, accuracy, executions, k);
      }
    } else {
      hide ResolvesHighest, Shielded, Attainable, Rank;
      var i, j :| 0 <= i < j < |levels| && Rank(levels[i].name) > Rank(levels[j].name)
                  && Attainable(levels[i]) && Attainable(levels[j]) && !Shielded(levels, i, j);
      if forall accuracy, executions :: Readable(accuracy, executions) ==> ResolvesHighest(levels, accuracy, executions) {
        HighestShields(levels, i, j);
      }
    }
  }

  /** The accuracy below which a level may be lost: the first listing of it that has a minimum. */
  function Floor(ladder: Ladder, level: string): Option<real> {
    FloorFrom(ladder, ladder.levels, level)
  }

  function FloorFrom(ladder: Ladder, levels: seq<Level>, level: string): Option<real> {
    if levels == [] then None
    else if levels[0].name == level && levels[0].accuracy.Some? && levels[0].accuracy.value.min.Some? then
      var band := levels[0].accuracy.value;
      Some(band.min.value - if band.buffer.Some? then band.buffer.value else ladder.dropThreshold)
    else FloorFrom(ladder, levels[1..], level)
  }

  /** Listing `i` is the first of this level that has a minimum, and the accuracy is below it by more than the
      buffer, which is its own or else the drop threshold. */
  ghost predicate FallsShort(ladder: Ladder, level: string, accuracy: real, i: int) {
    && 0 <= i < |ladder.levels| && HasMinimum(ladder.levels[i], level)
    && (forall j :: 0 <= j < i ==> !HasMinimum(ladder.levels[j], level))
    && accuracy + (if ladder.levels[i].accuracy.value.buffer.Some? then ladder.levels[i].accuracy.value.buffer.value
                   else ladder.dropThreshold) < ladder.levels[i].accuracy.value.min.value
  }

  predicate HasMinimum(l: Level, level: string) {
    l.name == level && l.accuracy.Some? && l.accuracy.value.min.Some?
  }

  lemma {:induction false} FloorByListing(ladder: Ladder, level: string, accuracy: real, k: nat)
    requires k <= |ladder.levels| && forall j :: 0 <= j < k ==> !HasMinimum(ladder.levels[j], level)
    ensures var floor := FloorFrom(ladder, ladder.levels[k..], level);
            (floor.Some? && accuracy < floor.value) <==> exists i :: FallsShort(ladder, level, accuracy, i)
    decreases |ladder.levels| - k
  {
    if k < |ladder.levels| {
      var tail := ladder.levels[k..];
      assert tail[0] == ladder.levels[k] && tail[1..] == ladder.levels[k + 1..];
      if HasMinimum(ladder.levels[k], level) {
        if accuracy < FloorFrom(ladder, tail, level).value { assert FallsShort(ladder, level, accuracy, k); }
      } else {
        FloorByListing(ladder, level, accuracy, k + 1);
      }
    }
  }

  lemma BelowFloorExactly(ladder: Ladder, level: string, accuracy: real)
    ensures var floor := Floor(ladder, level);
            (floor.Some? && accuracy < floor.value) <==> exists i :: FallsShort(ladder, level, accuracy, i)
  {
    assert ladder.levels[0..] == ladder.levels;
    FloorByListing(ladder, level, accuracy, 0);
  }

  /** Still within the grace period of the latest promotion, or of creation. */
  predicate InGrace(ladder: Ladder, s: Standing, created: int, now: int) {
    ladder.grace.Lasting? && now < (if s.promotedAt.Some? then s.promotedAt.value else created) + ladder.grace.d
  }

  predicate MayDemote(ladder: Ladder, s: Standing, created: int, held: string, r: Reading) {
    !InGrace(ladder, s, created, r.at) && Floor(ladder, held).Some? && r.demotion < Floor(ladder, held).value
  }

  /** checkDemotion. */
  method CheckDemotion(ladder: Ladder, s: Standing, created: int, held: string, r: Reading) returns (demote: bool)
    ensures demote == MayDemote(ladder, s, created, held, r)
    ensures demote <==>
            && (ladder.grace.Lasting? ==> r.at - (if s.promotedAt.Some? then s.promotedAt.value else created) >= ladder.grace.d)
            && exists i :: FallsShort(ladder, held, r.demotion, i)
  {
    BelowFloorExactly(ladder, held, r.demotion);
    hide FallsShort;
    if ladder.grace.Lasting? {
      var since := if s.promotedAt.Some? then s.promotedAt.value else created;
      if r.at < since + ladder.grace.d { return false; }
    }
    var i := 0;
    while i < |ladder.levels|
      invariant 0 <= i <= |ladder.levels|
      invariant Floor(ladder, held) == FloorFrom(ladder, ladder.levels[i..], held)
    {
      var l := ladder.levels[i];
      assert ladder.levels[i..][0] == l && ladder.levels[i..][1..] == ladder.levels[i + 1..];
      if l.name == held && l.accuracy.Some? && l.accuracy.value.min.Some? {
        var buffer := ladder.dropThreshold;
        if l.accuracy.value.buffer.Some? { buffer := l.accuracy.value.buffer.value; }
        return r.demotion < l.accuracy.value.min.value - buffer;
      }
      i := i + 1;
    }
    demote := false;
  }

  function Current(s: Standing): string {
    if s.level == "" then OBSERVER else s.level
  }

  /** One evaluation: promotions at once, demotions only past the guard. */
  function Next(ladder: Ladder, s: Standing, created: int, r: Reading): Standing {
    var held, earned := Current(s), Resolve(ladder.levels, r.recent, r.executions);
    var level := if Rank(earned) < Rank(held) && !MayDemote(ladder, s, created, held, r) then held else earned;
    Standing(level,
             if Rank(level) > Rank(held) then Some(r.at) else s.promotedAt,
             if level != held && Rank(level) <= Rank(held) then Some(r.at) else s.demotedAt)
  }

  /** The stored trust profile. */
  class Profile {
    const created: int
    var level: string
    var promotedAt: Option<int>
    var demotedAt: Option<int>

    function State(): Standing
      reads this
    {
      Standing(level, promotedAt, demotedAt)
    }

    constructor (created: int)
      ensures this.created == created && State() == Standing("", None, None)
    {
      this.created, level, promotedAt, demotedAt := created, "", None, None;
    }

    /** The level step of Reconcile. */
    method Evaluate(ladder: Ladder, r: Reading)
      modifies this
      ensures State() == Next(ladder, old(State()), created, r)
      ensures level == Resolve(ladder.levels, r.recent, r.executions) || Rank(Resolve(ladder.levels, r.recent, r.executions)) < Rank(level)
      ensures var held, earned, due := if old(level) == "" then "Observer" else old(level),
                                       Resolve(ladder.levels, r.recent, r.executions),
                                       MayDemote(ladder, old(State()), created, if old(level) == "" then "Observer" else old(level), r);
              && level == (if Rank(earned) >= Rank(held) || due then earned else held)
              && promotedAt == (if Rank(level) > Rank(held) then Some(r.at) else old(promotedAt))
              && demotedAt == (if Rank(level) < Rank(held) || (Rank(level) == Rank(held) && level != held) then Some(r.at) else old(demotedAt))
    {
      hide Rank, Resolve, MayDemote;
      var earned := ResolveTrustLevel(ladder.levels, r.recent, r.executions);
      var held := if level == "" then OBSERVER else level;
      if Rank(earned) < Rank(held) {
        var demote := CheckDemotion(ladder, State(), created, held, r);
        if !demote { earned := held; }
      }
      level := earned;
      if earned != held {
        if Rank(earned) > Rank(held) { promotedAt := Some(r.at); } else { demotedAt := Some(r.at); }
      }
    }
  }

  // ---------- whole runs under one policy ----------

  predicate InOrder(rs: seq<Reading>) {
    forall i, j :: 0 <= i < j < |rs| ==> rs[i].at <= rs[j].at
  }

  /** The standing after a sequence of evaluations. */
  function After(ladder: Ladder, created: int, rs: seq<Reading>): Standing {
    if rs == [] then Standing("", None, None)
    else Next(ladder, After(ladder, created, rs[..|rs| - 1]), created, rs[|rs| - 1])
  }

  function RankAfter(ladder: Ladder, created: int, rs: seq<Reading>): int {
    Rank(Current(After(ladder, created, rs)))
  }

  /** Evaluation number `k` raised, or lowered, the agent. */
  predicate Promotes(ladder: Ladder, created: int, rs: seq<Reading>, k: nat)
    requires k < |rs|
  {
    RankAfter(ladder, created, rs[..k + 1]) > RankAfter(ladder, created, rs[..k])
  }

  predicate Demotes(ladder: Ladder, created: int, rs: seq<Reading>, k: nat)
    requires k < |rs|
  {
    RankAfter(ladder, created, rs[..k + 1]) < RankAfter(ladder, created, rs[..k])
  }

  /** The API admits only named levels. */
  predicate Named(ladder: Ladder) {
    forall i :: 0 <= i < |ladder.levels| ==> ladder.levels[i].name != ""
  }

  lemma {:induction false} ResolvesToName(levels: seq<Level>, accuracy: real, executions: int)
    requires forall i :: 0 <= i < |levels| ==> levels[i].name != ""
    ensures Resolve(levels, accuracy, executions) != ""
  {
    if levels != [] { ResolvesToName(levels[..|levels| - 1], accuracy, executions); }
  }

  lemma StepRank(ladder: Ladder, s: Standing, created: int, r: Reading)
    requires Named(ladder)
    ensures var s', held := Next(ladder, s, created, r), Current(s);
            && (Rank(Current(s')) < Rank(held) ==> MayDemote(ladder, s, created, held, r))
            && (Rank(Current(s')) > Rank(held) ==> s'.promotedAt == Some(r.at))
            && (Rank(Current(s')) <= Rank(held) ==> s'.promotedAt == s.promotedAt)
  {
    ResolvesToName(ladder.levels, r.recent, r.executions);
    hide MayDemote, Resolve, Rank;
  }

  lemma LastStep(ladder: Ladder, created: int, rs: seq<Reading>, k: nat)
    requires k < |rs|
    ensures After(ladder, created, rs[..k + 1]) == Next(ladder, After(ladder, created, rs[..k]), created, rs[k])
  {
    assert rs[..k + 1][..k] == rs[..k];
  }

  /** After a promotion the profile carries a promotion time no earlier than it. */
  lemma {:induction false} PromotionRemembered(ladder: Ladder, created: int, rs: seq<Reading>, j: nat, n: nat)
    requires Named(ladder) && InOrder(rs) && j < n <= |rs| && Promotes(ladder, created, rs, j)
    ensures After(ladder, created, rs[..n]).promotedAt.Some?
    ensures After(ladder, created, rs[..n]).promotedAt.value >= rs[j].at
    decreases n
  {
    hide Next, After, Rank, MayDemote;
    LastStep(ladder, created, rs, n - 1);
    StepRank(ladder, After(ladder, created, rs[..n - 1]), created, rs[n - 1]);
    if j < n - 1 { PromotionRemembered(ladder, created, rs, j, n - 1); }
  }

  /** Every demotion comes at least the grace period after every earlier promotion (after creation if
      there was none), and only when the demotion accuracy falls short of the minimum that the old level's
      first listing with one sets, by more than the buffer. */
  lemma AntiFlapping(ladder: Ladder, created: int, rs: seq<Reading>, k: nat)
    requires Named(ladder) && InOrder(rs) && k < |rs| && Demotes(ladder, created, rs, k)
    ensures exists i :: FallsShort(ladder, Current(After(ladder, created, rs[..k])), rs[k].demotion, i)
    ensures ladder.grace.Lasting? ==>
              forall j :: 0 <= j < k && Promotes(ladder, created, rs, j) ==> rs[k].at >= rs[j].at + ladder.grace.d
    ensures ladder.grace.Lasting? && After(ladder, created, rs[..k]).promotedAt.None? ==>
              rs[k].at >= created + ladder.grace.d
  {
    hide Next, After, Rank, Floor, FallsShort;
    LastStep(ladder, created, rs, k);
    StepRank(ladder, After(ladder, created, rs[..k]), created, rs[k]);
    BelowFloorExactly(ladder, Current(After(ladder, created, rs[..k])), rs[k].demotion);
    forall j | 0 <= j < k && Promotes(ladder, created, rs, j)
      ensures ladder.grace.Lasting? ==> rs[k].at >= rs[j].at + ladder.grace.d
    {
      PromotionRemembered(ladder, created, rs, j, k);
    }
  }

  /** And when it does fall short, outside the grace period, an agent that has earned a lower level drops
      to it at once; one that has earned a higher or equal one always gets it. */
  lemma EarnedIsHeld(ladder: Ladder, created: int, rs: seq<Reading>, k: nat)
    requires Named(ladder) && k < |rs|
    requires var s, earned := After(ladder, created, rs[..k]), Resolve(ladder.levels, rs[k].recent, rs[k].executions);
             || Rank(earned) >= Rank(Current(s))
             || ((ladder.grace.Lasting? ==> rs[k].at - (if s.promotedAt.Some? then s.promotedAt.value else created) >= ladder.grace.d)
                 && exists i :: FallsShort(ladder, Current(s), rs[k].demotion, i))
    ensures Current(After(ladder, created, rs[..k + 1])) == Resolve(ladder.levels, rs[k].recent, rs[k].executions)
  {
    hide After, Rank, Floor, FallsShort, Resolve;
    LastStep(ladder, created, rs, k);
    ResolvesToName(ladder.levels, rs[k].recent, rs[k].executions);
    BelowFloorExactly(ladder, Current(After(ladder, created, rs[..k])), rs[k].demotion);
  }

  /** There has been a promotion since the last demotion. */
  predicate Risen(ladder: Ladder, created: int, rs: seq<Reading>, n: nat)
    requires n <= |rs|
  {
    n > 0 && (Promotes(ladder, created, rs, n - 1) || (!Demotes(ladder, created, rs, n - 1) && Risen(ladder, created, rs, n - 1)))
  }

  /** How often an agent was promoted and then demoted. */
  function Reversals(ladder: Ladder, created: int, rs: seq<Reading>, n: nat): nat
    requires n <= |rs|
  {
    if n == 0 then 0
    else Reversals(ladder, created, rs, n - 1)
         + if Demotes(ladder, created, rs, n - 1) && Risen(ladder, created, rs, n - 1) then 1 else 0
  }

  lemma {:induction false} ReversalsPaced(ladder: Ladder, created: int, rs: seq<Reading>, n: nat)
    requires Named(ladder) && InOrder(rs) && ladder.grace.Lasting? && 0 < n <= |rs|
    ensures Reversals(ladder, created, rs, n) * ladder.grace.d <= rs[n - 1].at - rs[0].at
    ensures Risen(ladder, created, rs, n) ==>
              && After(ladder, created, rs[..n]).promotedAt.Some?
              && Reversals(ladder, created, rs, n) * ladder.grace.d <= After(ladder, created, rs[..n]).promotedAt.value - rs[0].at
  {
    hide Next, After, Rank, Floor;
    LastStep(ladder, created, rs, n - 1);
    StepRank(ladder, After(ladder, created, rs[..n - 1]), created, rs[n - 1]);
    if n == 1 {
      assert Reversals(ladder, created, rs, 0) == 0 && !Risen(ladder, created, rs, 0);
    } else {
      ReversalsPaced(ladder, created, rs, n - 1);
      var r, d := Reversals(ladder, created, rs, n - 1), ladder.grace.d;
      assert (r + 1) * d == r * d + d;
    }
  }

  /** Up-then-down reversals happen at most once per grace period. */
  lemma FewReversals(ladder: Ladder, created: int, rs: seq<Reading>)
    requires Named(ladder) && InOrder(rs) && rs != [] && ladder.grace.Lasting? && ladder.grace.d > 0
    ensures Reversals(ladder, created, rs, |rs|) <= (rs[|rs| - 1].at - rs[0].at) / ladder.grace.d
  {
    ReversalsPaced(ladder, created, rs, |rs|);
    DivideOut(Reversals(ladder, created, rs, |rs|), rs[|rs| - 1].at - rs[0].at, ladder.grace.d);
  }

  lemma DivideOut(n: nat, total: int, d: int)
    requires d > 0 && n * d <= total
    ensures n <= total / d
  {
    var q := total / d;
    assert total == q * d + total % d;
    assert (q + 1) * d == q * d + d;
    LessByFactor(n, q + 1, d);
  }

  lemma LessByFactor(a: int, b: int, d: int)
    requires d > 0 && a * d < b * d
    ensures a < b
  {
  }
}

/** The gateway's trust gate: an agent's trust level against a GovernedResource's
    floor and ceiling, and the annotations that steer the controller. */
module TrustGate {
  import opened Api

  const OBSERVER := "Observer"

  /** TrustLevelRank; unknown levels rank -1. */
  function Rank(level: string): int {
    if level == OBSERVER then 0
    else if level == "Advisor" then 1
    else if level == "Supervised" then 2
    else if level == "Trusted" then 3
    else if level == "Autonomous" then 4
    else -1
  }

  /** The levels from least to most trusted. */
  const LADDER := [OBSERVER, "Advisor", "Supervised", "Trusted", "Autonomous"]

  lemma RankIsPlace(level: string)
    ensures forall i :: 0 <= i < 5 ==> (Rank(level) == i <==> level == LADDER[i])
    ensures level !in LADDER <==> Rank(level) == -1
  {
  }

  predicate Known(level: string) {
    Rank(level) >= 0
  }

  datatype Requirements = Requirements(minTrustLevel: string, maxAutonomyLevel: string)

  datatype LevelRule = LevelRule(name: string, canExecute: bool, requiresHuman: bool)

  /** Everything the gate reads: the requirements of the matched resource (if any), the
      request mode, the agent's profile level (None: no profile) and the levels of the
      "default" graduation policy (None: no such policy). */
  datatype GateInput = GateInput(
    requirements: Option<Requirements>, observe: bool,
    profile: Option<string>, policy: Option<seq<LevelRule>>)

  /** The two annotations the controller consults; None means the annotation is absent. */
  datatype GateResult =
    | Rejected
    | Passed(effective: Option<string>, canExecute: Option<bool>, requiresHuman: Option<bool>)

  function EffectiveLevel(g: GateInput): string {
    if g.profile == None || g.profile.value == "" then OBSERVER else g.profile.value
  }

  /** The agent's level, capped by the resource's ceiling when that is a known level. */
  function Autonomy(g: GateInput): (level: string)
    requires g.requirements.Some?
    ensures Known(g.requirements.value.maxAutonomyLevel) ==>
              Rank(level) <= Rank(g.requirements.value.maxAutonomyLevel)
    ensures Rank(level) <= Rank(EffectiveLevel(g))
    ensures level in {EffectiveLevel(g), g.requirements.value.maxAutonomyLevel}
    ensures level != EffectiveLevel(g) ==> Known(level)
  {
    var cap := g.requirements.value.maxAutonomyLevel;
    if Known(cap) && Rank(EffectiveLevel(g)) > Rank(cap) then cap else EffectiveLevel(g)
  }

  predicate BelowFloor(g: GateInput)
    requires g.requirements.Some?
  {
    var floor := g.requirements.value.minTrustLevel;
    floor != "" && (!Known(floor) || Rank(EffectiveLevel(g)) < Rank(floor))
  }

  /** The gate applies to govern-mode requests on resources with trust requirements. */
  predicate Applies(g: GateInput) {
    g.requirements.Some? && !g.observe
  }

  // ---------- what the gate is to decide ----------

  predicate OnLadder(level: string) {
    level in LADDER
  }

  lemma KnownIsOn(level: string)
    ensures OnLadder(level) <==> Known(level)
  {
    RankIsPlace(level);
  }

  /** Level `b` is on the ladder, and `a` is further down or not on it at all. */
  ghost predicate StandsBelow(a: string, b: string) {
    exists j :: 0 <= j < |LADDER| && LADDER[j] == b && forall i :: 0 <= i < |LADDER| && LADDER[i] == a ==> i < j
  }

  lemma BelowByRank(a: string, b: string)
    ensures StandsBelow(a, b) <==> Known(b) && Rank(a) < Rank(b)
  {
    RankIsPlace(a);
    RankIsPlace(b);
    if Known(b) { assert LADDER[Rank(b)] == b; }
    hide Rank;
  }

  /** The agent does not reach the resource's floor; a floor that is no level is out of reach. */
  ghost predicate TooLow(g: GateInput) {
    && g.requirements.Some? && g.requirements.value.minTrustLevel != ""
    && (|| !OnLadder(g.requirements.value.minTrustLevel)
        || StandsBelow(if g.profile.Some? && g.profile.value != "" then g.profile.value else "Observer",
                       g.requirements.value.minTrustLevel))
  }

  /** The level that counts: the agent's own, Observer if it has none, or the ceiling if that is further down. */
  ghost predicate CountsAs(g: GateInput, level: string) {
    && g.requirements.Some?
    && var held := if g.profile.Some? && g.profile.value != "" then g.profile.value else "Observer";
       var ceiling := g.requirements.value.maxAutonomyLevel;
       level == if OnLadder(ceiling) && StandsBelow(ceiling, held) then ceiling else held
  }

  /** The first listing of the level that counts lets the agent execute. */
  ghost predicate Grants(g: GateInput) {
    g.policy.Some? && exists level, i :: CountsAs(g, level) && FirstNamed(g.policy.value, level, i) && g.policy.value[i].canExecute
  }

  /** And without asking a human. */
  ghost predicate Waives(g: GateInput) {
    && g.policy.Some?
    && exists level, i :: CountsAs(g, level) && FirstNamed(g.policy.value, level, i)
                          && g.policy.value[i].canExecute && !g.policy.value[i].requiresHuman
  }

  ghost predicate FirstNamed(levels: seq<LevelRule>, name: string, i: int) {
    && 0 <= i < |levels| && levels[i].name == name
    && forall j :: 0 <= j < i ==> levels[j].name != name
  }

  /** evaluateTrustGate. */
  method EvaluateTrustGate(g: GateInput) returns (r: GateResult)
    ensures r == Gate(g)
    ensures g.requirements.None? || g.observe ==> r == Passed(None, None, None)
    ensures g.requirements.Some? && !g.observe ==> (r.Rejected? <==> TooLow(g)) && Stamped(g, r)
  {
    hide TooLow, Stamped;
    GateExactly(g);
    hide BelowFloor, Autonomy;
    if !Applies(g) {
      return Passed(None, None, None);
    }
    if BelowFloor(g) {
      return Rejected;
    }
    var level := Autonomy(g);
    var requiresApproval, canExecute := true, false;
    if g.policy.Some? {
      var levels := g.policy.value;
      var i := 0;
      while i < |levels| && levels[i].name != level
        invariant 0 <= i <= |levels|
        invariant forall j :: 0 <= j < i ==> levels[j].name != level
      {
        i := i + 1;
      }
      IndexIsFirst(levels, level, i);
      if i < |levels| {
        canExecute, requiresApproval := levels[i].canExecute, levels[i].requiresHuman;
      }
    }
    r := if !canExecute then Passed(Some(level), Some(false), None)
         else Passed(Some(level), None, Some(requiresApproval));
  }

  /** A request that is let through carries the level that counts; it is marked as not executable exactly if
      that level does not grant execution, and otherwise says whether a human must approve. */
  ghost predicate Stamped(g: GateInput, r: GateResult) {
    r.Passed? ==>
      && r.effective.Some? && CountsAs(g, r.effective.value)
      && r.canExecute == (if Grants(g) then None else Some(false))
      && r.requiresHuman == (if Grants(g) then Some(!Waives(g)) else None)
  }

  /** The value form of the gate, used by the admission steps of the lifecycle. */
  function Gate(g: GateInput): GateResult {
    if !Applies(g) then Passed(None, None, None)
    else if BelowFloor(g) then Rejected
    else
      var level := Autonomy(g);
      var i := if g.policy.Some? then IndexOf(g.policy.value, level) else 0;
      if g.policy.Some? && i < |g.policy.value| && g.policy.value[i].canExecute
      then Passed(Some(level), None, Some(g.policy.value[i].requiresHuman))
      else Passed(Some(level), Some(false), None)
  }

  function IndexOf(levels: seq<LevelRule>, name: string): (i: nat)
    ensures i <= |levels|
  {
    if levels == [] || levels[0].name == name then 0 else 1 + IndexOf(levels[1..], name)
  }

  lemma {:induction false} IndexIsFirst(levels: seq<LevelRule>, name: string, i: nat)
    requires i <= |levels|
    requires i < |levels| ==> levels[i].name == name
    requires forall j :: 0 <= j < i ==> levels[j].name != name
    ensures IndexOf(levels, name) == i
  {
    if i > 0 {
      assert forall j :: 0 <= j < i - 1 ==> levels[1..][j] == levels[j + 1];
      IndexIsFirst(levels[1..], name, i - 1);
    }
  }

  lemma AutonomyCounts(g: GateInput, level: string)
    requires g.requirements.Some?
    ensures CountsAs(g, level) <==> level == Autonomy(g)
    ensures TooLow(g) <==> BelowFloor(g)
  {
    hide Rank, StandsBelow, OnLadder;
    BelowByRank(g.requirements.value.maxAutonomyLevel, EffectiveLevel(g));
    BelowByRank(EffectiveLevel(g), g.requirements.value.minTrustLevel);
    KnownIsOn(g.requirements.value.maxAutonomyLevel);
    KnownIsOn(g.requirements.value.minTrustLevel);
  }

  lemma OneFirst(levels: seq<LevelRule>, name: string, i: int)
    requires FirstNamed(levels, name, i)
    ensures i == IndexOf(levels, name)
  {
    IndexIsFirst(levels, name, i);
  }

  lemma ListingDecides(g: GateInput)
    requires g.requirements.Some?
    ensures var i := if g.policy.Some? then IndexOf(g.policy.value, Autonomy(g)) else 0;
            && (Grants(g) <==> g.policy.Some? && i < |g.policy.value| && g.policy.value[i].canExecute)
            && (Waives(g) <==> g.policy.Some? && i < |g.policy.value| && g.policy.value[i].canExecute && !g.policy.value[i].requiresHuman)
  {
    if g.policy.Some? {
      var level := Autonomy(g);
      var i := IndexOf(g.policy.value, level);
      IndexOfIsFirst(g.policy.value, level);
      AutonomyCounts(g, level);
      hide Autonomy, CountsAs;
      if i < |g.policy.value| { assert FirstNamed(g.policy.value, level, i); }
      forall l, j | CountsAs(g, l) && FirstNamed(g.policy.value, l, j) ensures l == level && j == i {
        AutonomyCounts(g, l);
        OneFirst(g.policy.value, l, j);
      }
    }
  }

  /** The gate decides by the ladder and the first listing of the level that counts. */
  lemma GateExactly(g: GateInput)
    ensures g.requirements.None? || g.observe ==> Gate(g) == Passed(None, None, None)
    ensures g.requirements.Some? && !g.observe ==> (Gate(g).Rejected? <==> TooLow(g)) && Stamped(g, Gate(g))
  {
    if g.requirements.Some? {
      AutonomyCounts(g, Autonomy(g));
      ListingDecides(g);
      hide TooLow, CountsAs, Grants, Waives, BelowFloor, Autonomy;
    }
  }

  /** The gate fails closed: a level that is unlisted, barred, or without a policy is
      always stamped can-execute="false" (or the request is rejected). */
  lemma GateFailsClosed(g: GateInput)
    requires g.requirements.Some? && !g.observe && !Grants(g)
    ensures Gate(g) == Rejected || (Gate(g).canExecute == Some(false) && Gate(g).requiresHuman == None)
  {
    GateExactly(g);
  }

  lemma {:induction false} IndexOfIsFirst(levels: seq<LevelRule>, name: string)
    ensures forall j :: 0 <= j < IndexOf(levels, name) ==> levels[j].name != name
    ensures IndexOf(levels, name) < |levels| ==> levels[IndexOf(levels, name)].name == name
  {
    if levels != [] && levels[0].name != name {
      IndexOfIsFirst(levels[1..], name);
      forall j | 0 <= j < IndexOf(levels, name) ensures levels[j].name != name {
        if j > 0 { assert levels[j] == levels[1..][j - 1]; }
      }
    }
  }
}

/** SafetyPolicy evaluation: nested loops over policies, rules and cascade targets that track the
    highest priority seen. The CEL engine is a parameter. */
module Evaluation {
  import opened Api

  /** What the CEL engine says of one expression. */
  datatype Cel = Yes | No | Error(text: string)

  /** Rule actions are strings in the API; an unknown one has priority zero. */
  datatype RuleAction = Known(action: Action) | Unknown(text: string)

  datatype Rule = Rule(name: string, expression: string, action: RuleAction, message: Option<string>)

  datatype Policy = Policy(name: string, failureMode: Option<string>, rules: seq<Rule>) {
    predicate FailsClosed() {
      failureMode.None? || failureMode.value == "FailClosed"
    }
  }

  datatype Target = Target(uri: string, effect: string)

  /** The variables an expression is evaluated under: the request's, or a cascade target's. */
  datatype Scope = OfRequest | OfTarget(target: Target)

  type Engine = (string, Scope) -> Cel

  datatype Code = NoCode | EvaluationFailure | PolicyViolation | CascadeDenied

  datatype Label = FailedDeny | FailedOpen | CascadeFailed | CascadeDeny | Acted(action: RuleAction)

  datatype Report = Report(policy: string, rule: string, verdict: Label)

  datatype Result = Result(action: Action, code: Code, message: string, reports: seq<Report>)

  function Priority(a: Action): int {
    match a
    case Allow => 1
    case Log => 2
    case RequireApproval => 3
    case Deny => 4
  }

  function RulePriority(a: RuleAction): int {
    if a.Known? then Priority(a.action) else 0
  }

  // ---------- what one rule contributes ----------

  /** One rule under one scope, in the order they are looked at. */
  datatype Item = Item(policy: Policy, rule: Rule, scope: Scope)

  function Outcome(cel: Engine, x: Item): Cel {
    cel(x.rule.expression, x.scope)
  }

  /** The action an item asks for; Allow asks for nothing. */
  function Asks(cel: Engine, x: Item): Action {
    match Outcome(cel, x)
    case Error(_) => if x.policy.FailsClosed() then Deny else Allow
    case No => Allow
    case Yes =>
      if x.rule.action.Unknown? then Allow
      else if x.scope.OfRequest? || x.rule.action.action == Deny then x.rule.action.action
      else Allow
  }

  /** Why an item denies. */
  function Cause(cel: Engine, x: Item): Code {
    if Outcome(cel, x).Error? then EvaluationFailure
    else if x.scope.OfRequest? then PolicyViolation
    else CascadeDenied
  }

  function Message(cel: Engine, x: Item): string {
    if Outcome(cel, x).Error? then
      (if x.scope.OfRequest? then "CEL evaluation failed (FailClosed): " else "Cascade CEL evaluation failed (FailClosed): ")
      + Outcome(cel, x).text
    else if x.scope.OfTarget? then "Cascade effect denied by policy: " + x.policy.name + " rule: " + x.rule.name
    else if x.rule.message.Some? then x.rule.message.value
    else (if Asks(cel, x) == Deny then "Denied by policy: " else "Approval required by policy: ")
         + x.policy.name + " rule: " + x.rule.name
  }

  /** What is reported of an item: failures and matches other than Allow. */
  function Reports(cel: Engine, x: Item): seq<Report> {
    var said := Outcome(cel, x);
    if x.scope.OfRequest? then
      if said.Error? then [Report(x.policy.name, x.rule.name, if x.policy.FailsClosed() then FailedDeny else FailedOpen)]
      else if said.Yes? && x.rule.action != Known(Allow) && x.rule.action != Unknown("")
      then [Report(x.policy.name, x.rule.name, Acted(x.rule.action))]
      else []
    else if said.Error? && x.policy.FailsClosed() then [Report(x.policy.name, x.rule.name, CascadeFailed)]
    else if said.Yes? && x.rule.action == Known(Deny) then [Report(x.policy.name, x.rule.name, CascadeDeny)]
    else []
  }

  // ---------- the scan ----------

  function RuleItems(p: Policy, rules: seq<Rule>, scope: Scope): seq<Item> {
    seq(|rules|, i requires 0 <= i < |rules| => Item(p, rules[i], scope))
  }

  function Items(policies: seq<Policy>, scope: Scope): seq<Item> {
    if policies == [] then []
    else Items(policies[..|policies| - 1], scope) + RuleItems(Last(policies), Last(policies).rules, scope)
  }

  function CascadeItems(policies: seq<Policy>, targets: seq<Target>): seq<Item> {
    if targets == [] then []
    else CascadeItems(policies, targets[..|targets| - 1]) + Items(policies, OfTarget(Last(targets)))
  }

  function Last<T>(s: seq<T>): T
    requires s != []
  {
    s[|s| - 1]
  }

  /** Everything that is looked at, in order. An escalation has no cascade scan. */
  function Scanned(policies: seq<Policy>, targets: seq<Target>, escalate: bool): seq<Item> {
    Items(policies, OfRequest) + if escalate then [] else CascadeItems(policies, targets)
  }

  /** The running state after a prefix of the scan. */
  function Top(cel: Engine, items: seq<Item>): Action {
    if items == [] then Allow
    else
      var before := Top(cel, items[..|items| - 1]);
      if Priority(Asks(cel, Last(items))) > Priority(before) then Asks(cel, Last(items)) else before
  }

  predicate Raises(cel: Engine, items: seq<Item>)
    requires items != []
  {
    Priority(Asks(cel, Last(items))) > Priority(Top(cel, items[..|items| - 1]))
  }

  function CodeOf(cel: Engine, items: seq<Item>): Code {
    if items == [] then NoCode
    else if Raises(cel, items) && Asks(cel, Last(items)) == Deny then Cause(cel, Last(items))
    else CodeOf(cel, items[..|items| - 1])
  }

  function MessageOf(cel: Engine, items: seq<Item>): string {
    if items == [] then ""
    else if Raises(cel, items) && (Asks(cel, Last(items)) == Deny || Asks(cel, Last(items)) == RequireApproval)
    then Message(cel, Last(items))
    else MessageOf(cel, items[..|items| - 1])
  }

  function ReportsOf(cel: Engine, items: seq<Item>): seq<Report> {
    if items == [] then [] else ReportsOf(cel, items[..|items| - 1]) + Reports(cel, Last(items))
  }

  /** The variables of the scan. */
  datatype Scan = Scan(highest: int, action: Action, code: Code, message: string, reports: seq<Report>)

  ghost predicate Tracks(cel: Engine, items: seq<Item>, s: Scan) {
    && s.action == Top(cel, items) && s.highest == Priority(s.action) && s.code == CodeOf(cel, items)
    && s.message == MessageOf(cel, items) && s.reports == ReportsOf(cel, items)
  }

  lemma Snoc(items: seq<Item>, x: Item)
    ensures items + [x] != [] && Last(items + [x]) == x && (items + [x])[..|items + [x]| - 1] == items
  {
  }

  lemma RulesSnoc(base: seq<Item>, p: Policy, scope: Scope, j: nat)
    requires j < |p.rules|
    ensures base + RuleItems(p, p.rules[..j + 1], scope) == base + RuleItems(p, p.rules[..j], scope) + [Item(p, p.rules[j], scope)]
  {
  }

  lemma ItemsSnoc(base: seq<Item>, policies: seq<Policy>, scope: Scope, i: nat)
    requires i < |policies|
    ensures base + Items(policies[..i + 1], scope) == base + Items(policies[..i], scope) + RuleItems(policies[i], policies[i].rules, scope)
  {
    assert policies[..i + 1][..i] == policies[..i];
  }

  lemma CascadeSnoc(base: seq<Item>, policies: seq<Policy>, targets: seq<Target>, k: nat)
    requires k < |targets|
    ensures base + CascadeItems(policies, targets[..k + 1])
         == base + CascadeItems(policies, targets[..k]) + Items(policies, OfTarget(targets[k]))
  {
    assert targets[..k + 1][..k] == targets[..k];
  }

  lemma NothingYet(base: seq<Item>, p: Policy, policies: seq<Policy>, scope: Scope)
    ensures base + RuleItems(p, [], scope) == base && base + Items([], scope) == base && base + CascadeItems(policies, []) == base
  {
  }

  /** The body of the main loop. */
  method EvaluateRule(cel: Engine, p: Policy, rule: Rule, s0: Scan, ghost items: seq<Item>) returns (s: Scan)
    requires Tracks(cel, items, s0)
    ensures Tracks(cel, items + [Item(p, rule, OfRequest)], s)
  {
    Snoc(items, Item(p, rule, OfRequest));
    s := s0;
    var said := cel(rule.expression, OfRequest);
    if said.Error? {
      if p.FailsClosed() {
        if s.highest < Priority(Deny) {
          s := s.(highest := Priority(Deny), action := Deny, code := EvaluationFailure,
                  message := "CEL evaluation failed (FailClosed): " + said.text);
        }
        s := s.(reports := s.reports + [Report(p.name, rule.name, FailedDeny)]);
      } else {
        s := s.(reports := s.reports + [Report(p.name, rule.name, FailedOpen)]);
      }
    } else if said.Yes? {
      if RulePriority(rule.action) > s.highest {
        s := s.(highest := RulePriority(rule.action), action := rule.action.action);
        if s.action == Deny {
          s := s.(code := PolicyViolation, message := if rule.message.Some? then rule.message.value
                                                      else "Denied by policy: " + p.name + " rule: " + rule.name);
        } else if s.action == RequireApproval {
          s := s.(message := if rule.message.Some? then rule.message.value
                             else "Approval required by policy: " + p.name + " rule: " + rule.name);
        }
      }
      if rule.action != Known(Allow) && rule.action != Unknown("") {
        s := s.(reports := s.reports + [Report(p.name, rule.name, Acted(rule.action))]);
      }
    }
  }

  /** The body of the cascade loop: only denials count. */
  method CascadeRule(cel: Engine, p: Policy, rule: Rule, target: Target, s0: Scan, ghost items: seq<Item>) returns (s: Scan)
    requires Tracks(cel, items, s0)
    ensures Tracks(cel, items + [Item(p, rule, OfTarget(target))], s)
  {
    Snoc(items, Item(p, rule, OfTarget(target)));
    s := s0;
    var said := cel(rule.expression, OfTarget(target));
    if said.Error? {
      if p.FailsClosed() {
        if s.highest < Priority(Deny) {
          s := s.(highest := Priority(Deny), action := Deny, code := EvaluationFailure,
                  message := "Cascade CEL evaluation failed (FailClosed): " + said.text);
        }
        s := s.(reports := s.reports + [Report(p.name, rule.name, CascadeFailed)]);
      }
    } else if said.Yes? && rule.action == Known(Deny) {
      if s.highest < Priority(Deny) {
        s := s.(highest := Priority(Deny), action := Deny, code := CascadeDenied,
                message := "Cascade effect denied by policy: " + p.name + " rule: " + rule.name);
      }
      s := s.(reports := s.reports + [Report(p.name, rule.name, CascadeDeny)]);
    }
  }

  /** evaluateCascade: the same policies against every affected target. */
  method EvaluateCascade(cel: Engine, policies: seq<Policy>, targets: seq<Target>, s0: Scan, ghost base: seq<Item>) returns (s: Scan)
    requires Tracks(cel, base, s0)
    ensures Tracks(cel, base + CascadeItems(policies, targets), s)
  {
    hide Tracks, Items, RuleItems, CascadeItems;
    s := s0;
    NothingYet(base, Policy("", None, []), policies, OfRequest);
    for k := 0 to |targets|
      invariant Tracks(cel, base + CascadeItems(policies, targets[..k]), s)
    {
      ghost var before, scope := base + CascadeItems(policies, targets[..k]), OfTarget(targets[k]);
      NothingYet(before, Policy("", None, []), policies, scope);
      for i := 0 to |policies|
        invariant Tracks(cel, before + Items(policies[..i], scope), s)
      {
        var p := policies[i];
        ghost var items := before + Items(policies[..i], scope);
        NothingYet(items, p, policies, scope);
        for j := 0 to |p.rules|
          invariant Tracks(cel, items + RuleItems(p, p.rules[..j], scope), s)
        {
          s := CascadeRule(cel, p, p.rules[j], targets[k], s, items + RuleItems(p, p.rules[..j], scope));
          RulesSnoc(items, p, scope, j);
        }
        assert p.rules[..|p.rules|] == p.rules;
        ItemsSnoc(before, policies, scope, i);
      }
      assert policies[..|policies|] == policies;
      CascadeSnoc(base, policies, targets, k);
    }
    assert targets[..|targets|] == targets;
  }

  // ---------- what the policies demand ----------

  /** A rule of one of the policies, under the request's scope or that of an affected target. */
  predicate InScan(policies: seq<Policy>, targets: seq<Target>, escalate: bool, x: Item) {
    && x.policy in policies && x.rule in x.policy.rules
    && (x.scope.OfTarget? ==> !escalate && x.scope.target in targets)
  }

  lemma {:induction false} ItemsExactly(policies: seq<Policy>, scope: Scope, x: Item)
    ensures x in Items(policies, scope) <==> x.policy in policies && x.rule in x.policy.rules && x.scope == scope
  {
    if policies != [] {
      var rest, p := policies[..|policies| - 1], Last(policies);
      ItemsExactly(rest, scope, x);
      assert policies == rest + [p];
      var own := RuleItems(p, p.rules, scope);
      if x.policy == p && x.rule in p.rules && x.scope == scope {
        var i :| 0 <= i < |p.rules| && p.rules[i] == x.rule;
        assert own[i] == x;
      }
    }
  }

  lemma {:induction false} CascadeExactly(policies: seq<Policy>, targets: seq<Target>, x: Item)
    ensures x in CascadeItems(policies, targets) <==>
            x.policy in policies && x.rule in x.policy.rules && x.scope.OfTarget? && x.scope.target in targets
  {
    if targets != [] {
      var rest, t := targets[..|targets| - 1], Last(targets);
      CascadeExactly(policies, rest, x);
      ItemsExactly(policies, OfTarget(t), x);
      assert targets == rest + [t];
    }
  }

  lemma ScannedExactly(policies: seq<Policy>, targets: seq<Target>, escalate: bool, x: Item)
    ensures x in Scanned(policies, targets, escalate) <==> InScan(policies, targets, escalate, x)
  {
    ItemsExactly(policies, OfRequest, x);
    CascadeExactly(policies, targets, x);
  }

  lemma {:induction false} TopIsHighest(cel: Engine, items: seq<Item>)
    ensures forall x :: x in items ==> Priority(Asks(cel, x)) <= Priority(Top(cel, items))
    ensures Top(cel, items) == Allow || exists x :: x in items && Asks(cel, x) == Top(cel, items)
  {
    if items != [] {
      var rest, last := items[..|items| - 1], Last(items);
      TopIsHighest(cel, rest);
      assert items == rest + [last];
    }
  }

  /** Some rule that is looked at demands this action: it fails under a policy whose failure mode is absent
      or FailClosed, which demands Deny; or it matches and says so, where for an affected target only a
      Deny counts. */
  ghost predicate Demanded(cel: Engine, policies: seq<Policy>, targets: seq<Target>, escalate: bool, a: Action) {
    exists p, x, scope: Scope :: && p in policies && x in p.rules && (scope.OfTarget? ==> !escalate && scope.target in targets)
                          && DemandedBy(cel, p, x, scope, a)
  }

  predicate DemandedBy(cel: Engine, p: Policy, x: Rule, scope: Scope, a: Action) {
    match cel(x.expression, scope)
    case Error(_) => a == Deny && (p.failureMode.None? || p.failureMode.value == "FailClosed")
    case Yes => x.action == Known(a) && (scope.OfTarget? ==> a == Deny)
    case No => false
  }

  lemma AsksDemanded(cel: Engine, x: Item, a: Action)
    requires a != Allow
    ensures Asks(cel, x) == a <==> DemandedBy(cel, x.policy, x.rule, x.scope, a)
  {
  }

  lemma DemandedInScan(cel: Engine, policies: seq<Policy>, targets: seq<Target>, escalate: bool, a: Action)
    requires a != Allow
    ensures Demanded(cel, policies, targets, escalate, a) <==>
            exists x :: x in Scanned(policies, targets, escalate) && Asks(cel, x) == a
  {
    hide Scanned, Asks;
    if Demanded(cel, policies, targets, escalate, a) {
      var p, x, scope: Scope :| && p in policies && x in p.rules && (scope.OfTarget? ==> !escalate && scope.target in targets)
                         && DemandedBy(cel, p, x, scope, a);
      ScannedExactly(policies, targets, escalate, Item(p, x, scope));
      AsksDemanded(cel, Item(p, x, scope), a);
    }
    if x :| x in Scanned(policies, targets, escalate) && Asks(cel, x) == a {
      ScannedExactly(policies, targets, escalate, x);
      AsksDemanded(cel, x, a);
    }
  }

  /** The strictest action demanded decides. */
  lemma StrictestDecides(cel: Engine, policies: seq<Policy>, targets: seq<Target>, escalate: bool)
    ensures var a := Top(cel, Scanned(policies, targets, escalate));
            && (a == Deny <==> Demanded(cel, policies, targets, escalate, Deny))
            && (a == RequireApproval <==> !Demanded(cel, policies, targets, escalate, Deny)
                                          && Demanded(cel, policies, targets, escalate, RequireApproval))
            && (a == Log <==> !Demanded(cel, policies, targets, escalate, Deny)
                              && !Demanded(cel, policies, targets, escalate, RequireApproval)
                              && Demanded(cel, policies, targets, escalate, Log))
  {
    var items := Scanned(policies, targets, escalate);
    TopIsHighest(cel, items);
    DemandedInScan(cel, policies, targets, escalate, Deny);
    DemandedInScan(cel, policies, targets, escalate, RequireApproval);
    DemandedInScan(cel, policies, targets, escalate, Log);
    hide Demanded, Scanned, Asks, Top;
  }

  /** Evaluate: the final action is the highest any item asks for, the code and message come from
      the item that set it, and every failure and match is reported in scan order. */
  method Evaluate(cel: Engine, prepared: bool, policies: seq<Policy>, targets: seq<Target>, escalate: bool) returns (r: Result)
    ensures !prepared ==> r.action == Deny && r.code == EvaluationFailure && r.reports == []
    ensures prepared ==> (r.action == Deny <==> Demanded(cel, policies, targets, escalate, Deny))
    ensures prepared ==> (r.action == RequireApproval <==> !Demanded(cel, policies, targets, escalate, Deny)
                                                           && Demanded(cel, policies, targets, escalate, RequireApproval))
    ensures prepared ==> (r.action == Log <==> !Demanded(cel, policies, targets, escalate, Deny)
                                               && !Demanded(cel, policies, targets, escalate, RequireApproval)
                                               && Demanded(cel, policies, targets, escalate, Log))
    ensures prepared ==>
              var items := Scanned(policies, targets, escalate);
              && r.action == Top(cel, items) && r.reports == ReportsOf(cel, items)
              && r.code == CodeOf(cel, items)
              && r.message == (if r.action == Deny || r.action == RequireApproval then MessageOf(cel, items)
                               else if r.action == Allow then "All policies passed" else "")
  {
    if !prepared {
      return Result(Deny, EvaluationFailure, "Failed to parse AgentRequest variables for evaluation", []);
    }
    var s := Scan(Priority(Allow), Allow, NoCode, "", []);
    assert Tracks(cel, [], s);
    assert Items([], OfRequest) == [];
    hide Items, RuleItems, CascadeItems, Top, CodeOf, MessageOf, ReportsOf;
    for i := 0 to |policies|
      invariant Tracks(cel, Items(policies[..i], OfRequest), s)
    {
      var p := policies[i];
      ghost var before := Items(policies[..i], OfRequest);
      NothingYet(before, p, policies, OfRequest);
      for j := 0 to |p.rules|
        invariant Tracks(cel, before + RuleItems(p, p.rules[..j], OfRequest), s)
      {
        s := EvaluateRule(cel, p, p.rules[j], s, before + RuleItems(p, p.rules[..j], OfRequest));
        RulesSnoc(before, p, OfRequest, j);
      }
      assert p.rules[..|p.rules|] == p.rules;
      ItemsSnoc([], policies, OfRequest, i);
      assert [] + Items(policies[..i], OfRequest) == Items(policies[..i], OfRequest);
      assert [] + Items(policies[..i + 1], OfRequest) == Items(policies[..i + 1], OfRequest);
    }
    assert policies[..|policies|] == policies;
    ghost var items := Items(policies, OfRequest);
    if !escalate {
      s := EvaluateCascade(cel, policies, targets, s, items);
    } else {
      assert items + [] == items;
    }
    QuietAllow(cel, Scanned(policies, targets, escalate));
    StrictestDecides(cel, policies, targets, escalate);
    hide Demanded;
    r := Result(s.action, if s.action == Deny then s.code else NoCode,
                if s.action == Deny || s.action == RequireApproval then s.message
                else if s.action == Allow && s.message == "" then "All policies passed" else "", s.reports);
  }

  /** As long as nothing asks for approval or denial there is no message, and no code short of a denial. */
  lemma {:induction false} QuietAllow(cel: Engine, items: seq<Item>)
    ensures Priority(Top(cel, items)) < 3 ==> MessageOf(cel, items) == ""
    ensures CodeOf(cel, items) == NoCode <==> Top(cel, items) != Deny
  {
    if items != [] { QuietAllow(cel, items[..|items| - 1]); }
  }
}
